/** One register across voter changes and purges (node/maintenance.go, paxos/acceptor.go).

    conf[g] is the voter set of generation g: the views between two voter changes.  Each
    change adds or removes one voter, and the next one waits until the register was synced
    at the current generation: settled there, or found without a row by a majority scan.
    An acceptor answers a request only at its installed generation.  The gate and the row
    update are two critical sections, so an install may slip between them: the row still
    changes, but the reply carries the newer epoch and the proposer drops it.  An acceptor
    that learns it was dropped may wipe its rows and its floor; one that was down while it
    was dropped and added again installs the later view with its old rows.  A purge is sent
    when voters of one generation answered a read with the same ballot and were as many as
    the view in force by then has voters; it is taken at any time, whatever view is installed. */
module VoterChange {
  import opened Options
  import opened Slots
  import opened Quorums

  /** A purge of the row accepted at ballot, sent by a proposer of generation gen. */
  datatype PurgeMsg = PurgeMsg(gen: nat, ballot: Ballot)

  /** seen is history: the purges already sent when the promise was made. */
  datatype PromiseMsg = PromiseMsg(gen: nat, from: NodeId, ballot: Ballot, accepted: Ballot, value: Option<Value>, seen: set<PurgeMsg>)

  datatype Proposal = Proposal(gen: nat, base: Ballot, cur: Option<Value>, value: Option<Value>)

  /** History of a proposal: the purges sent before it was made, and the acceptors that had
      moved past its generation by then. */
  datatype Moment = Moment(seen: set<PurgeMsg>, gone: set<NodeId>)

  datatype Ack = Ack(from: NodeId, ballot: Ballot)

  /** An acceptor that answered the sync scan of gen without a row. */
  datatype Blank = Blank(gen: nat, from: NodeId)

  /** An acceptor that answered a read at gen with the accepted ballot. */
  datatype Hold = Hold(gen: nat, from: NodeId, ballot: Ballot)

  datatype State = State(
    current: nat,
    inst: map<NodeId, nat>,
    slots: map<NodeId, Slot>,
    promises: set<PromiseMsg>,
    proposals: map<Ballot, Proposal>,
    made: map<Ballot, Moment>,
    admits: set<Ack>,
    acks: set<Ack>,
    blanks: set<Blank>,
    holds: set<Hold>,
    purges: set<PurgeMsg>)

  type Conf = seq<set<NodeId>>

  ghost predicate GoodConf(conf: Conf)
  {
    && |conf| > 0
    && (forall g :: 0 <= g < |conf| ==> conf[g] != {})
    && (forall g :: 0 <= g < |conf| - 1 ==> OneApart(conf[g], conf[g + 1]))
  }

  /** n is a voter of every generation from g to h. */
  ghost predicate Stays(conf: Conf, n: NodeId, g: nat, h: nat)
  {
    g <= h < |conf| && forall k :: g <= k <= h ==> n in conf[k]
  }

  ghost predicate Acked(s: State, n: NodeId, b: Ballot) { Ack(n, b) in s.acks }

  /** The accept of b passed the gate of n: it was answered, or may still write its row. */
  ghost predicate Took(s: State, n: NodeId, b: Ballot) { Ack(n, b) in s.acks || Ack(n, b) in s.admits }

  ghost predicate BlankAt(s: State, g: nat, n: NodeId) { Blank(g, n) in s.blanks }

  ghost predicate HeldAt(s: State, g: nat, n: NodeId, b: Ballot) { Hold(g, n, b) in s.holds }

  ghost predicate Purged(s: State, g: nat, d: Ballot) { PurgeMsg(g, d) in s.purges }

  ghost predicate Promised(s: State, g: nat, n: NodeId, b: Ballot, m: PromiseMsg)
  {
    m in s.promises && m.gen == g && m.from == n && m.ballot == b
  }

  /** The prepare phase of b ended with quorum q, all of whose promises came no later than
      the purges in seen, and p starts from the highest accepted row reported. */
  ghost predicate FromQuorum(conf: Conf, s: State, b: Ballot, q: set<NodeId>, p: Proposal, seen: set<PurgeMsg>)
  {
    && p.gen < |conf| && IsQuorum(q, conf[p.gen])
    && (forall n :: n in q ==> exists m :: Promised(s, p.gen, n, b, m) && m.accepted <= p.base && m.seen <= seen)
    && (exists n, m :: n in q && Promised(s, p.gen, n, b, m) && m.accepted == p.base && m.value == p.cur && m.seen <= seen)
  }

  ghost predicate AckedBy(s: State, b: Ballot, q: set<NodeId>)
  {
    forall n :: n in q ==> Acked(s, n, b)
  }

  /** A majority of the voters of its own generation accepted b. */
  ghost predicate Chosen(conf: Conf, s: State, b: Ballot)
  {
    && b in s.proposals && s.proposals[b].gen < |conf|
    && exists q :: IsQuorum(q, conf[s.proposals[b].gen]) && AckedBy(s, b, q)
  }

  ghost predicate ChosenAt(conf: Conf, s: State, g: nat, b: Ballot)
  {
    Chosen(conf, s, b) && s.proposals[b].gen == g
  }

  ghost predicate BlankBy(s: State, g: nat, q: set<NodeId>)
  {
    forall n :: n in q ==> BlankAt(s, g, n)
  }

  ghost predicate ScannedBlank(conf: Conf, s: State, g: nat)
  {
    g < |conf| && exists q :: IsQuorum(q, conf[g]) && BlankBy(s, g, q)
  }

  /** The register was settled at g, or a majority scan at g found no row of it. */
  ghost predicate Synced(conf: Conf, s: State, g: nat)
  {
    (exists b :: ChosenAt(conf, s, g, b)) || ScannedBlank(conf, s, g)
  }

  ghost predicate HeldByAll(conf: Conf, s: State, g: nat, d: Ballot)
  {
    g < |conf| && forall n :: n in conf[g] ==> HeldAt(s, g, n, d)
  }

  datatype Event =
    | InstallAt(n: NodeId, g: nat, wipe: bool)
    | PrepareAt(n: NodeId, g: nat, b: Ballot)
    | RacedPrepare(n: NodeId, b: Ballot)
    | Propose(b: Ballot, q: set<NodeId>, p: Proposal)
    | AcceptAt(n: NodeId, b: Ballot)
    | AdmitAt(n: NodeId, b: Ballot)
    | RacedAccept(n: NodeId, b: Ballot)
    | ScanAt(n: NodeId)
    | ReadAt(n: NodeId)
    | SendPurge(g: nat, d: Ballot, q: set<NodeId>, h: nat)
    | PurgeAt(n: NodeId, g: nat, d: Ballot)
    | RaiseFloor(n: NodeId, d: Ballot)
    | Advance

  ghost predicate Init(nodes: set<NodeId>, s: State)
  {
    && s.current == 0
    && s.inst.Keys == nodes && (forall n :: n in nodes ==> s.inst[n] == 0)
    && s.slots.Keys == nodes && (forall n :: n in nodes ==> s.slots[n] == Slot(None, 0))
    && s.promises == {} && s.proposals == map[] && s.made == map[] && s.admits == {} && s.acks == {}
    && s.blanks == {} && s.holds == {} && s.purges == {}
  }

  /** n answers at the generation it has installed, as one of its voters. */
  ghost predicate Serves(conf: Conf, s: State, n: NodeId)
  {
    n in s.inst && n in s.slots && s.inst[n] < |conf| && n in conf[s.inst[n]]
  }

  ghost predicate Enabled(conf: Conf, s: State, e: Event)
  {
    match e
    case InstallAt(n, g, wipe) =>
      n in s.inst && n in s.slots && s.inst[n] < g <= s.current && g < |conf| && (wipe ==> n !in conf[g])
    case PrepareAt(n, g, b) => b > 0 && Serves(conf, s, n) && s.inst[n] == g
    case RacedPrepare(n, b) => n in s.slots && b > 0
    case Propose(b, q, p) => b > 0 && b !in s.proposals && p.gen <= s.current && FromQuorum(conf, s, b, q, p, s.purges)
    case AcceptAt(n, b) => Serves(conf, s, n) && b in s.proposals && s.inst[n] == s.proposals[b].gen
    case AdmitAt(n, b) => Serves(conf, s, n) && b in s.proposals && s.inst[n] == s.proposals[b].gen
    case RacedAccept(n, b) => n in s.slots && b in s.proposals && Ack(n, b) in s.admits
    case ScanAt(n) => Serves(conf, s, n) && s.inst[n] == s.current && s.slots[n].row.None?
    case ReadAt(n) => Serves(conf, s, n) && s.slots[n].Accepted() > 0
    case SendPurge(g, d, q, h) =>
      && g <= h <= s.current && h < |conf| && q <= conf[g] && |q| >= |conf[h]|
      && forall n :: n in q ==> HeldAt(s, g, n, d)
    case PurgeAt(n, g, d) => n in s.slots && Purged(s, g, d)
    case RaiseFloor(n, d) => n in s.slots && d > s.slots[n].floor
    case Advance => s.current + 1 < |conf| && (s.current == 0 || Synced(conf, s, s.current))
  }

  ghost predicate NamesSlot(s: State, e: Event)
  {
    match e
    case Propose(b, q, p) => true
    case SendPurge(g, d, q, h) => true
    case Advance => true
    case AcceptAt(n, b) => n in s.slots && b in s.proposals
    case RacedAccept(n, b) => n in s.slots && b in s.proposals
    case ScanAt(n) => n in s.slots && n in s.inst
    case ReadAt(n) => n in s.slots && n in s.inst
    case _ => e.n in s.slots
  }

  ghost function MovedPast(s: State, g: nat): set<NodeId>
  {
    set n | n in s.inst && s.inst[n] > g
  }

  /** What the event makes of the slot it works on. */
  ghost function SlotAfter(s: State, e: Event, x: Slot): Slot
    requires e.AcceptAt? || e.RacedAccept? ==> e.b in s.proposals
  {
    match e
    case InstallAt(n, g, wipe) => if wipe then Slot(None, 0) else x
    case PrepareAt(n, g, b) => Prepare(x, b).0
    case RacedPrepare(n, b) => Prepare(x, b).0
    case AcceptAt(n, b) => Accept(x, b, s.proposals[b].value).0
    case RacedAccept(n, b) => Accept(x, b, s.proposals[b].value).0
    case PurgeAt(n, g, d) => Purge(x, d)
    case RaiseFloor(n, d) => x.(floor := d)
    case _ => x
  }

  ghost function Apply(s: State, e: Event): State
    requires NamesSlot(s, e)
  {
    match e
    case InstallAt(n, g, wipe) => s.(inst := s.inst[n := g], slots := s.slots[n := SlotAfter(s, e, s.slots[n])])
    case PrepareAt(n, g, b) =>
      var r := Prepare(s.slots[n], b).1;
      s.(slots := s.slots[n := SlotAfter(s, e, s.slots[n])],
         promises := if r.Promise? then s.promises + {PromiseMsg(g, n, b, r.accepted, r.value, s.purges)} else s.promises)
    case RacedPrepare(n, b) => s.(slots := s.slots[n := SlotAfter(s, e, s.slots[n])])
    case Propose(b, q, p) => s.(proposals := s.proposals[b := p], made := s.made[b := Moment(s.purges, MovedPast(s, p.gen))])
    case AcceptAt(n, b) =>
      s.(slots := s.slots[n := SlotAfter(s, e, s.slots[n])],
         acks := if Accept(s.slots[n], b, s.proposals[b].value).1.AcceptedAck? then s.acks + {Ack(n, b)} else s.acks)
    case AdmitAt(n, b) => s.(admits := s.admits + {Ack(n, b)})
    case RacedAccept(n, b) => s.(slots := s.slots[n := SlotAfter(s, e, s.slots[n])])
    case ScanAt(n) => s.(blanks := s.blanks + {Blank(s.inst[n], n)})
    case ReadAt(n) => s.(holds := s.holds + {Hold(s.inst[n], n, s.slots[n].Accepted())})
    case SendPurge(g, d, q, h) => s.(purges := s.purges + {PurgeMsg(g, d)})
    case PurgeAt(n, g, d) => s.(slots := s.slots[n := SlotAfter(s, e, s.slots[n])])
    case RaiseFloor(n, d) => s.(slots := s.slots[n := SlotAfter(s, e, s.slots[n])])
    case Advance => s.(current := s.current + 1)
  }

  ghost predicate Next(conf: Conf, s: State, t: State)
  {
    exists e :: Enabled(conf, s, e) && t == Apply(s, e)
  }

  /** An acceptor that comes back to the voters after a generation without it holds no
      accepted row. */
  ghost predicate ComesBackEmpty(conf: Conf, s: State, e: Event)
  {
    e.InstallAt? && e.n in s.inst && e.n in s.slots && e.g < |conf| && e.n in conf[e.g] && !Stays(conf, e.n, s.inst[e.n], e.g) ==>
      s.slots[e.n].Accepted() == 0
  }

  /** No accept that passed its gate before an acceptor was dropped lands after it came back. */
  ghost predicate LandsInTime(conf: Conf, s: State, e: Event)
  {
    e.RacedAccept? && e.b in s.proposals && Serves(conf, s, e.n) ==> Stays(conf, e.n, s.proposals[e.b].gen, s.inst[e.n])
  }

  /** A ballot used under later voters is above every ballot purged under earlier ones. */
  ghost predicate ClimbsOverPurges(s: State, e: Event)
  {
    e.Propose? ==> forall m :: m in s.purges && m.gen < e.p.gen ==> m.ballot < e.b
  }

  /** A purge is sent only when every voter asked has answered. */
  ghost predicate HeardAll(conf: Conf, e: Event)
  {
    e.SendPurge? && e.g < |conf| ==> e.q == conf[e.g]
  }

  /** What the safety of a purged register needs of every step. */
  ghost predicate CleanStep(conf: Conf, s: State, e: Event)
  {
    ComesBackEmpty(conf, s, e) && LandsInTime(conf, s, e) && ClimbsOverPurges(s, e) && HeardAll(conf, e)
  }

  ghost predicate CleanNext(conf: Conf, s: State, t: State)
  {
    exists e :: Enabled(conf, s, e) && CleanStep(conf, s, e) && t == Apply(s, e)
  }

  /** A step of a clean run, or of a run that sends no purge. */
  ghost predicate Allowed(conf: Conf, clean: bool, s: State, e: Event)
  {
    Enabled(conf, s, e) && if clean then CleanStep(conf, s, e) else !e.SendPurge?
  }

  // ---- what every step keeps ----

  /** Ballot b is still visible in an accepted ballot a, or a purge at or above b and
      below the bound wiped it. */
  ghost predicate Remembered(ps: set<PurgeMsg>, b: Ballot, a: Ballot, bound: nat)
  {
    a >= b || (a == 0 && PurgedIn(ps, b, bound))
  }

  ghost predicate PurgedIn(ps: set<PurgeMsg>, lo: Ballot, hi: nat)
  {
    exists m :: m in ps && lo <= m.ballot < hi
  }

  ghost predicate RowOk(s: State, n: NodeId, a: Ballot, v: Option<Value>)
  {
    if a == 0 then v == None else a in s.proposals && v == s.proposals[a].value && Took(s, n, a)
  }

  ghost predicate SlotOk(conf: Conf, clean: bool, s: State, n: NodeId)
    requires n in s.slots && n in s.inst
  {
    && s.inst[n] <= s.current
    && s.slots[n].Valid() && RowOk(s, n, s.slots[n].Accepted(), s.slots[n].Value())
    && (clean && Serves(conf, s, n) && s.slots[n].Accepted() > 0 ==>
         Stays(conf, n, s.proposals[s.slots[n].Accepted()].gen, s.inst[n]))
  }

  ghost predicate SlotsOk(conf: Conf, clean: bool, s: State)
  {
    && s.inst.Keys == s.slots.Keys
    && s.current < |conf|
    && (forall n :: n in s.slots ==> SlotOk(conf, clean, s, n))
  }

  /** What a promise says of its acceptor as long as that stays a voter. */
  ghost predicate PromiseKept(s: State, m: PromiseMsg)
    requires m.from in s.slots
  {
    var x := s.slots[m.from];
    && m.ballot <= x.Promised()
    && (x.Accepted() == 0 || x.Accepted() == m.accepted || x.Accepted() >= m.ballot)
    && (x.row.None? ==> exists p :: p in s.purges && m.ballot <= p.ballot)
  }

  ghost predicate PromiseOk(conf: Conf, clean: bool, s: State, m: PromiseMsg)
  {
    && m.from in s.inst && m.from in s.slots
    && m.gen <= s.inst[m.from] && m.gen < |conf| && m.from in conf[m.gen]
    && m.accepted < m.ballot && RowOk(s, m.from, m.accepted, m.value) && m.seen <= s.purges
    && (m.accepted > 0 ==> m.accepted in s.made && s.made[m.accepted].seen <= m.seen)
    && (clean && m.accepted > 0 ==> Stays(conf, m.from, s.proposals[m.accepted].gen, m.gen))
    && (Stays(conf, m.from, m.gen, s.inst[m.from]) ==> PromiseKept(s, m))
  }

  ghost predicate PromisesOk(conf: Conf, clean: bool, s: State)
  {
    forall m :: m in s.promises ==> PromiseOk(conf, clean, s, m)
  }

  /** n, a voter since g, has not forgotten b. */
  ghost predicate Keeps(conf: Conf, s: State, n: NodeId, g: nat, b: Ballot)
    requires n in s.inst && n in s.slots
  {
    Stays(conf, n, g, s.inst[n]) ==>
      b <= s.slots[n].Promised() && Remembered(s.purges, b, s.slots[n].Accepted(), s.slots[n].Promised() + 1)
  }

  ghost predicate TookOk(conf: Conf, s: State, n: NodeId, b: Ballot)
  {
    && n in s.inst && n in s.slots && b in s.proposals && b in s.made
    && s.proposals[b].gen <= s.inst[n] && s.proposals[b].gen < |conf| && n in conf[s.proposals[b].gen]
    && n !in s.made[b].gone
  }

  ghost predicate TakesOk(conf: Conf, s: State)
  {
    forall n: NodeId, b: Ballot :: Took(s, n, b) ==> TookOk(conf, s, n, b)
  }

  ghost predicate AckOk(conf: Conf, s: State, n: NodeId, b: Ballot)
  {
    && n in s.inst && n in s.slots && b in s.proposals
    && Keeps(conf, s, n, s.proposals[b].gen, b)
  }

  ghost predicate AcksOk(conf: Conf, s: State)
  {
    forall n: NodeId, b: Ballot :: Acked(s, n, b) ==> AckOk(conf, s, n, b)
  }

  ghost predicate HoldOk(conf: Conf, clean: bool, s: State, g: nat, n: NodeId, b: Ballot)
  {
    && n in s.inst && n in s.slots && b > 0 && b in s.proposals && Took(s, n, b)
    && g <= s.inst[n] && g < |conf| && n in conf[g]
    && (clean ==> Stays(conf, n, s.proposals[b].gen, g))
    && Keeps(conf, s, n, g, b)
  }

  ghost predicate HoldsOk(conf: Conf, clean: bool, s: State)
  {
    forall g: nat, n: NodeId, b: Ballot :: HeldAt(s, g, n, b) ==> HoldOk(conf, clean, s, g, n, b)
  }

  /** The promise m came after its acceptor had b at generation g, and shows it. */
  ghost predicate Shows(conf: Conf, m: PromiseMsg, g: nat, b: Ballot)
  {
    Stays(conf, m.from, g, m.gen) && (g < m.gen || b < m.ballot) ==> Remembered(m.seen, b, m.accepted, m.ballot)
  }

  ghost predicate PromisesRemember(conf: Conf, s: State)
  {
    forall m, b: Ballot :: m in s.promises && Acked(s, m.from, b) && b in s.proposals ==>
      Shows(conf, m, s.proposals[b].gen, b)
  }

  ghost predicate PromisesShowHolds(conf: Conf, s: State)
  {
    forall m, g: nat, b: Ballot :: m in s.promises && HeldAt(s, g, m.from, b) ==> Shows(conf, m, g, b)
  }

  /** Promises of one acceptor rise from one generation to the next. */
  ghost predicate PromisesRise(s: State)
  {
    forall m, m' :: m in s.promises && m' in s.promises && m.from == m'.from && m'.gen == m.gen + 1 ==>
      m.ballot < m'.ballot
  }

  ghost predicate BlankOk(s: State, g: nat, n: NodeId, m: PromiseMsg)
  {
    exists p :: p in s.purges && p.gen <= g && m.ballot <= p.ballot
  }

  ghost predicate BlanksOk(s: State)
  {
    && (forall g: nat, n: NodeId :: BlankAt(s, g, n) ==> n in s.inst && g <= s.inst[n])
    && (forall m :: m in s.promises && BlankAt(s, m.gen + 1, m.from) ==> BlankOk(s, m.gen + 1, m.from, m))
  }

  /** By the time b was made, a majority of every generation up to that of an earlier purge
      had moved past b's own. */
  ghost predicate GoneOk(conf: Conf, s: State, b: Ballot)
    requires b in s.proposals && b in s.made
  {
    forall p :: p in s.made[b].seen && s.proposals[b].gen < p.gen ==>
      p.gen < |conf| && conf[p.gen] <= s.made[b].gone
      && forall k :: s.proposals[b].gen < k <= p.gen ==> MajorityGone(conf, s.made[b].gone, k)
  }

  ghost predicate MajorityGone(conf: Conf, gone: set<NodeId>, k: nat)
  {
    k < |conf| && exists q :: IsQuorum(q, conf[k]) && q <= gone
  }

  ghost predicate ProposalOk(conf: Conf, s: State, b: Ballot)
    requires b in s.proposals
  {
    && b > 0 && s.proposals[b].gen <= s.current && b in s.made
    && s.made[b].seen <= s.purges
    && (forall n :: n in s.made[b].gone ==> n in s.inst && s.inst[n] > s.proposals[b].gen)
    && (exists q :: FromQuorum(conf, s, b, q, s.proposals[b], s.made[b].seen))
    && GoneOk(conf, s, b)
  }

  ghost predicate ProposalsOk(conf: Conf, s: State)
  {
    forall b :: b in s.proposals ==> ProposalOk(conf, s, b)
  }

  ghost predicate PurgeOk(conf: Conf, s: State, m: PurgeMsg)
  {
    m.gen <= s.current && HeldByAll(conf, s, m.gen, m.ballot)
  }

  ghost predicate PurgesOk(conf: Conf, clean: bool, s: State)
  {
    && (!clean ==> s.purges == {})
    && (forall m :: m in s.purges ==> PurgeOk(conf, s, m))
  }

  /** A ballot of a later generation is above every ballot purged under an earlier one. */
  ghost predicate FreshBallots(s: State)
  {
    forall c, m :: c in s.proposals && m in s.purges && m.gen < s.proposals[c].gen ==> m.ballot < c
  }

  ghost predicate AllSynced(conf: Conf, s: State)
  {
    forall g :: 0 < g < s.current ==> Synced(conf, s, g)
  }

  ghost predicate Inv(conf: Conf, clean: bool, s: State)
  {
    && SlotsOk(conf, clean, s) && PromisesOk(conf, clean, s) && TakesOk(conf, s) && AcksOk(conf, s)
    && HoldsOk(conf, clean, s) && PromisesRemember(conf, s) && PromisesShowHolds(conf, s) && PromisesRise(s)
    && BlanksOk(s) && ProposalsOk(conf, s) && PurgesOk(conf, clean, s) && FreshBallots(s) && AllSynced(conf, s)
  }

  ghost predicate Grows(s: State, t: State)
  {
    && s.current <= t.current && s.promises <= t.promises && s.acks <= t.acks && s.admits <= t.admits
    && s.blanks <= t.blanks && s.holds <= t.holds && s.purges <= t.purges
    && (forall b :: b in s.proposals ==> b in t.proposals && t.proposals[b] == s.proposals[b])
    && (forall b :: b in s.proposals && b in s.made ==> b in t.made && t.made[b] == s.made[b])
    && s.inst.Keys <= t.inst.Keys && (forall n :: n in s.inst ==> s.inst[n] <= t.inst[n])
  }

  lemma EnabledNamesSlot(conf: Conf, s: State, e: Event)
    requires Enabled(conf, s, e)
    ensures NamesSlot(s, e)
  {
  }

  lemma StepGrows(conf: Conf, s: State, e: Event, t: State)
    requires Enabled(conf, s, e) && t == Apply(s, e)
    ensures Grows(s, t)
  {
  }

  lemma RowGrows(s: State, t: State, n: NodeId, a: Ballot, v: Option<Value>)
    requires RowOk(s, n, a, v) && Grows(s, t)
    ensures RowOk(t, n, a, v)
  {
  }

  lemma RememberedGrows(ps: set<PurgeMsg>, ps': set<PurgeMsg>, b: Ballot, a: Ballot, bound: nat, bound': nat)
    requires Remembered(ps, b, a, bound) && ps <= ps' && bound <= bound'
    ensures Remembered(ps', b, a, bound')
  {
    if a < b {
      var m :| m in ps && b <= m.ballot < bound;
      assert m in ps';
    }
  }

  ghost predicate Accepts(s: State, e: Event, n: NodeId, b: Ballot)
  {
    (e == AcceptAt(n, b) || e == RacedAccept(n, b)) && b in s.proposals
  }

  ghost predicate SameRow(x: Slot, y: Slot) { y.Accepted() == x.Accepted() && y.Value() == x.Value() }

  ghost predicate PurgedRow(s: State, x: Slot, y: Slot)
  {
    y.Accepted() == 0 && exists p :: p in s.purges && p.ballot == x.Accepted()
  }

  ghost predicate TakenRow(s: State, e: Event, n: NodeId, x: Slot, y: Slot, b: Ballot)
  {
    Accepts(s, e, n, b) && y.Accepted() == b == y.Promised() && b >= x.Promised() && y.Value() == s.proposals[b].value
  }

  /** What a step may do to a slot that it does not wipe. */
  ghost predicate SlotMove(s: State, e: Event, n: NodeId, x: Slot, y: Slot)
  {
    && y.Valid() && x.Promised() <= y.Promised()
    && (SameRow(x, y) || PurgedRow(s, x, y) || exists b: Ballot :: TakenRow(s, e, n, x, y, b))
    && (x.row.Some? && y.row.None? ==> exists p :: p in s.purges && p.ballot >= x.Promised())
  }

  lemma SlotAfterMoves(conf: Conf, s: State, e: Event, n: NodeId, x: Slot)
    requires x.Valid() && Enabled(conf, s, e) && NamesSlot(s, e) && (forall b :: b in s.proposals ==> b > 0)
    requires !(e.InstallAt? && e.wipe) && (e.AcceptAt? || e.RacedAccept? ==> e.n == n)
    requires e.RaiseFloor? ==> e.d > x.floor
    ensures SlotMove(s, e, n, x, SlotAfter(s, e, x))
  {
    var y := SlotAfter(s, e, x);
    if e.AcceptAt? || e.RacedAccept? {
      assert SameRow(x, y) || TakenRow(s, e, n, x, y, e.b);
    }
    if e.PurgeAt? {
      assert PurgeMsg(e.g, e.d) in s.purges;
      assert SameRow(x, y) || PurgedRow(s, x, y);
    }
  }

  ghost predicate Wiped(e: Event, n: NodeId) { e.InstallAt? && e.n == n && e.wipe }

  lemma SlotMoves(conf: Conf, s: State, e: Event, t: State, n: NodeId)
    requires Enabled(conf, s, e) && t == Apply(s, e) && (forall b :: b in s.proposals ==> b > 0)
    requires n in s.slots && s.slots[n].Valid() && !Wiped(e, n)
    ensures n in t.slots && SlotMove(s, e, n, s.slots[n], t.slots[n])
  {
    hide SlotMove, SlotAfter;
    EnabledNamesSlot(conf, s, e);
    if e.Propose? || e.SendPurge? || e.Advance? || e.n != n || e.AdmitAt? || e.ScanAt? || e.ReadAt? {
      assert t.slots[n] == s.slots[n];
      SlotUnmoved(s, e, n, s.slots[n]);
    } else {
      SlotAfterMoves(conf, s, e, n, s.slots[n]);
    }
  }

  lemma SlotUnmoved(s: State, e: Event, n: NodeId, x: Slot)
    requires x.Valid()
    ensures SlotMove(s, e, n, x, x)
  {
  }

  /** What only an install changes. */
  lemma InstallMoves(conf: Conf, s: State, e: Event, t: State, n: NodeId)
    requires Enabled(conf, s, e) && t == Apply(s, e) && n in s.inst
    ensures n in t.inst && s.inst[n] <= t.inst[n] && (s.inst[n] < t.inst[n] ==> e.InstallAt? && e.n == n && e.g == t.inst[n])
    ensures t.inst.Keys == s.inst.Keys && t.slots.Keys == s.slots.Keys
  {
  }

  lemma StaysBack(conf: Conf, n: NodeId, g: nat, h: nat, h': nat)
    requires Stays(conf, n, g, h') && g <= h <= h'
    ensures Stays(conf, n, g, h)
  {
  }

  lemma StaysOn(conf: Conf, n: NodeId, g: nat, h: nat, h': nat)
    requires Stays(conf, n, g, h) && Stays(conf, n, h, h')
    ensures Stays(conf, n, g, h')
  {
  }

  /** An acceptor that is still a voter after a step was one before it, and was not wiped. */
  lemma StaysBefore(conf: Conf, s: State, e: Event, t: State, n: NodeId, g: nat)
    requires Enabled(conf, s, e) && t == Apply(s, e) && n in s.inst && n in t.inst
    requires g <= s.inst[n] && Stays(conf, n, g, t.inst[n])
    ensures Stays(conf, n, g, s.inst[n]) && !Wiped(e, n)
  {
    InstallMoves(conf, s, e, t, n);
    StaysBack(conf, n, g, s.inst[n], t.inst[n]);
  }

  lemma PositiveBallots(conf: Conf, s: State)
    requires ProposalsOk(conf, s)
    ensures forall b :: b in s.proposals ==> b > 0
  {
    forall b | b in s.proposals ensures b > 0 {
      assert ProposalOk(conf, s, b);
    }
  }

  lemma RowKept(conf: Conf, clean: bool, s: State, e: Event, t: State, n: NodeId)
    requires Enabled(conf, s, e) && t == Apply(s, e) && SlotsOk(conf, clean, s) && ProposalsOk(conf, s)
    requires n in s.slots && !Wiped(e, n)
    ensures n in t.slots && t.slots[n].Valid() && RowOk(t, n, t.slots[n].Accepted(), t.slots[n].Value())
  {
    PositiveBallots(conf, s);
    assert SlotOk(conf, clean, s, n);
    SlotMoves(conf, s, e, t, n);
    StepGrows(conf, s, e, t);
    RowGrows(s, t, n, s.slots[n].Accepted(), s.slots[n].Value());
    if b: Ballot :| TakenRow(s, e, n, s.slots[n], t.slots[n], b) {
      AcceptTakes(conf, s, e, t, n, b);
    }
  }

  /** A row is written by an accept that was answered or had passed the gate. */
  lemma AcceptTakes(conf: Conf, s: State, e: Event, t: State, n: NodeId, b: Ballot)
    requires Enabled(conf, s, e) && t == Apply(s, e) && Accepts(s, e, n, b) && n in s.slots && n in t.slots && s.slots[n].Valid()
    requires t.slots[n].Accepted() == b
    ensures Took(t, n, b) || t.slots[n] == s.slots[n]
  {
  }

  lemma SlotKept(conf: Conf, clean: bool, s: State, e: Event, t: State, n: NodeId)
    requires Allowed(conf, clean, s, e) && t == Apply(s, e) && SlotsOk(conf, clean, s) && ProposalsOk(conf, s)
    requires n in s.slots && n in t.slots && n in t.inst && !Wiped(e, n)
    ensures SlotOk(conf, clean, t, n)
  {
    InstallMoves(conf, s, e, t, n);
    assert SlotOk(conf, clean, s, n);
    RowKept(conf, clean, s, e, t, n);
    PositiveBallots(conf, s);
    SlotMoves(conf, s, e, t, n);
    StepGrows(conf, s, e, t);
    InstalledInTime(conf, s, e, t, n);
    hide Allowed, Apply, SlotsOk, ProposalsOk, SlotMove, Stays;
    if clean && Serves(conf, t, n) && t.slots[n].Accepted() > 0 {
      ServingRowKept(conf, s, e, t, n);
    }
  }

  lemma InstalledInTime(conf: Conf, s: State, e: Event, t: State, n: NodeId)
    requires Enabled(conf, s, e) && t == Apply(s, e) && n in s.inst && s.inst[n] <= s.current
    ensures n in t.inst && t.inst[n] <= t.current
  {
  }

  lemma WipedSlotOk(conf: Conf, clean: bool, s: State, e: Event, t: State, n: NodeId)
    requires Enabled(conf, s, e) && t == Apply(s, e) && Wiped(e, n)
    ensures n in t.slots && n in t.inst && SlotOk(conf, clean, t, n)
  {
  }

  lemma SlotsKept(conf: Conf, clean: bool, s: State, e: Event, t: State)
    requires Allowed(conf, clean, s, e) && t == Apply(s, e) && SlotsOk(conf, clean, s) && ProposalsOk(conf, s)
    ensures SlotsOk(conf, clean, t)
  {
    StepBounds(conf, s, e, t);
    hide Allowed, Apply, ProposalsOk, SlotOk;
    forall n | n in t.slots ensures SlotOk(conf, clean, t, n) {
      if Wiped(e, n) {
        WipedSlotOk(conf, clean, s, e, t, n);
      } else {
        SlotKept(conf, clean, s, e, t, n);
      }
    }
  }

  lemma StepBounds(conf: Conf, s: State, e: Event, t: State)
    requires Enabled(conf, s, e) && t == Apply(s, e) && s.current < |conf|
    ensures t.current < |conf| && t.inst.Keys == s.inst.Keys && t.slots.Keys == s.slots.Keys
  {
  }

  /** A voter's row stays one of the generations through which it has been a voter. */
  lemma ServingRowKept(conf: Conf, s: State, e: Event, t: State, n: NodeId)
    requires Allowed(conf, true, s, e) && Grows(s, t) && Serves(conf, t, n)
    requires n in s.inst && n in s.slots && SlotOk(conf, true, s, n) && t.slots[n].Accepted() > 0
    requires SlotMove(s, e, n, s.slots[n], t.slots[n])
    requires t.inst[n] == s.inst[n] || (e.InstallAt? && e.n == n && e.g == t.inst[n])
    ensures t.slots[n].Accepted() in t.proposals && Stays(conf, n, t.proposals[t.slots[n].Accepted()].gen, t.inst[n])
  {
    hide Allowed, Stays, Grows, SlotOk;
    if b: Ballot :| TakenRow(s, e, n, s.slots[n], t.slots[n], b) {
      TakenStays(conf, s, e, t, n, b);
    } else {
      SameStays(conf, s, e, t, n);
    }
  }

  lemma TakenStays(conf: Conf, s: State, e: Event, t: State, n: NodeId, b: Ballot)
    requires Allowed(conf, true, s, e) && Grows(s, t) && Serves(conf, t, n) && n in s.inst && n in s.slots
    requires TakenRow(s, e, n, s.slots[n], t.slots[n], b) && t.inst[n] == s.inst[n]
    ensures t.slots[n].Accepted() in t.proposals && Stays(conf, n, t.proposals[t.slots[n].Accepted()].gen, t.inst[n])
  {
  }

  lemma SameStays(conf: Conf, s: State, e: Event, t: State, n: NodeId)
    requires Allowed(conf, true, s, e) && Grows(s, t) && Serves(conf, t, n)
    requires n in s.inst && n in s.slots && SlotOk(conf, true, s, n)
    requires t.slots[n].Accepted() == s.slots[n].Accepted() > 0
    requires t.inst[n] == s.inst[n] || (e.InstallAt? && e.n == n && e.g == t.inst[n])
    ensures t.slots[n].Accepted() in t.proposals && Stays(conf, n, t.proposals[t.slots[n].Accepted()].gen, t.inst[n])
  {
    if t.inst[n] != s.inst[n] {
      StaysOn(conf, n, s.proposals[s.slots[n].Accepted()].gen, s.inst[n], e.g);
    }
  }

  /** What a promise says of its acceptor outlives every step that leaves it a voter. */
  lemma PromiseKeptOn(s: State, e: Event, t: State, m: PromiseMsg)
    requires m.from in s.slots && m.from in t.slots && s.slots[m.from].Valid() && PromiseKept(s, m)
    requires SlotMove(s, e, m.from, s.slots[m.from], t.slots[m.from]) && s.purges <= t.purges
    ensures PromiseKept(t, m)
  {
    var x, y := s.slots[m.from], t.slots[m.from];
    if y.row.None? {
      var p :| p in s.purges && m.ballot <= p.ballot;
      assert p in t.purges;
    }
  }

  lemma OldPromiseKept(conf: Conf, clean: bool, s: State, e: Event, t: State, m: PromiseMsg)
    requires Enabled(conf, s, e) && t == Apply(s, e)
    requires SlotsOk(conf, clean, s) && ProposalsOk(conf, s) && PromiseOk(conf, clean, s, m)
    requires m.from in t.inst && Stays(conf, m.from, m.gen, t.inst[m.from])
    ensures m.from in t.slots && PromiseKept(t, m)
  {
    StepGrows(conf, s, e, t);
    assert SlotOk(conf, clean, s, m.from);
    StaysBefore(conf, s, e, t, m.from, m.gen);
    PositiveBallots(conf, s);
    SlotMoves(conf, s, e, t, m.from);
    hide Enabled, Apply, SlotsOk, ProposalsOk, PromiseKept, SlotMove, Stays, SlotOk, RowOk;
    PromiseKeptOn(s, e, t, m);
  }

  lemma OldPromiseOk(conf: Conf, clean: bool, s: State, e: Event, t: State, m: PromiseMsg)
    requires Enabled(conf, s, e) && t == Apply(s, e)
    requires SlotsOk(conf, clean, s) && ProposalsOk(conf, s) && PromiseOk(conf, clean, s, m)
    ensures PromiseOk(conf, clean, t, m)
  {
    hide Enabled, Apply, SlotsOk, ProposalsOk, PromiseKept, Stays;
    StepGrows(conf, s, e, t);
    InstallMoves(conf, s, e, t, m.from);
    RowGrows(s, t, m.from, m.accepted, m.value);
    if Stays(conf, m.from, m.gen, t.inst[m.from]) {
      OldPromiseKept(conf, clean, s, e, t, m);
    }
  }

  /** Where a new promise comes from. */
  lemma NewPromiseFrom(conf: Conf, s: State, e: Event, t: State, m: PromiseMsg)
    requires Enabled(conf, s, e) && t == Apply(s, e) && m in t.promises && m !in s.promises
    ensures e.PrepareAt? && m.from == e.n && m.gen == e.g && m.ballot == e.b && m.seen == s.purges
    ensures Serves(conf, s, m.from) && s.inst[m.from] == m.gen && m.from in t.slots
    ensures Prepare(s.slots[m.from], m.ballot) == (t.slots[m.from], Promise(m.accepted, m.value))
    ensures t.inst == s.inst && t.purges == s.purges && t.proposals == s.proposals && t.made == s.made
  {
  }

  lemma ProposalMade(conf: Conf, s: State, b: Ballot)
    requires ProposalsOk(conf, s) && b in s.proposals
    ensures b in s.made && s.made[b].seen <= s.purges
  {
    assert ProposalOk(conf, s, b);
  }

  lemma NewPromiseOk(conf: Conf, clean: bool, s: State, e: Event, t: State, m: PromiseMsg)
    requires Enabled(conf, s, e) && t == Apply(s, e) && SlotsOk(conf, clean, s) && ProposalsOk(conf, s)
    requires m in t.promises && m !in s.promises
    ensures PromiseOk(conf, clean, t, m)
  {
    NewPromiseFrom(conf, s, e, t, m);
    StepGrows(conf, s, e, t);
    assert SlotOk(conf, clean, s, m.from);
    hide Enabled, Apply, SlotsOk, ProposalsOk;
    RowGrows(s, t, m.from, m.accepted, m.value);
    if m.accepted > 0 {
      ProposalMade(conf, s, m.accepted);
    }
  }

  lemma PromisesKept(conf: Conf, clean: bool, s: State, e: Event, t: State)
    requires Enabled(conf, s, e) && t == Apply(s, e) && SlotsOk(conf, clean, s) && ProposalsOk(conf, s)
      && PromisesOk(conf, clean, s)
    ensures PromisesOk(conf, clean, t)
  {
    hide SlotsOk, ProposalsOk, PromiseOk, Enabled, Apply;
    forall m | m in t.promises ensures PromiseOk(conf, clean, t, m) {
      if m in s.promises {
        OldPromiseOk(conf, clean, s, e, t, m);
      } else {
        NewPromiseOk(conf, clean, s, e, t, m);
      }
    }
  }

  /** What a voter has not forgotten it does not forget by a step that leaves it a voter. */
  lemma KeepsOn(conf: Conf, clean: bool, s: State, e: Event, t: State, n: NodeId, g: nat, b: Ballot)
    requires Enabled(conf, s, e) && t == Apply(s, e) && SlotsOk(conf, clean, s) && ProposalsOk(conf, s)
    requires n in s.inst && n in s.slots && n in t.inst && n in t.slots && g <= s.inst[n] && b > 0
    requires Keeps(conf, s, n, g, b)
    ensures Keeps(conf, t, n, g, b)
  {
    if Stays(conf, n, g, t.inst[n]) {
      StaysBefore(conf, s, e, t, n, g);
      PositiveBallots(conf, s);
      assert SlotOk(conf, clean, s, n);
      SlotMoves(conf, s, e, t, n);
      StepGrows(conf, s, e, t);
      hide Enabled, Apply, SlotsOk, ProposalsOk, SlotOk, Stays;
      MoveRemembers(s, e, t, n, b);
    }
  }

  lemma MoveRemembers(s: State, e: Event, t: State, n: NodeId, b: Ballot)
    requires n in s.slots && n in t.slots && s.slots[n].Valid() && SlotMove(s, e, n, s.slots[n], t.slots[n])
      && s.purges <= t.purges
    requires 0 < b <= s.slots[n].Promised() && Remembered(s.purges, b, s.slots[n].Accepted(), s.slots[n].Promised() + 1)
    ensures b <= t.slots[n].Promised() && Remembered(t.purges, b, t.slots[n].Accepted(), t.slots[n].Promised() + 1)
  {
    var x, y := s.slots[n], t.slots[n];
    RememberedGrows(s.purges, t.purges, b, x.Accepted(), x.Promised() + 1, y.Promised() + 1);
    if PurgedRow(s, x, y) && x.Accepted() >= b {
      var p :| p in s.purges && p.ballot == x.Accepted();
      assert p in t.purges;
    }
  }

  lemma TakesKept(conf: Conf, clean: bool, s: State, e: Event, t: State)
    requires Enabled(conf, s, e) && t == Apply(s, e) && SlotsOk(conf, clean, s) && ProposalsOk(conf, s) && TakesOk(conf, s)
    ensures TakesOk(conf, t)
  {
    StepGrows(conf, s, e, t);
    forall n: NodeId, b: Ballot | Took(t, n, b) ensures TookOk(conf, t, n, b) {
      if Took(s, n, b) {
        assert TookOk(conf, s, n, b);
        InstallMoves(conf, s, e, t, n);
        hide Enabled, Apply;
      } else {
        NewTake(conf, s, e, t, n, b);
      }
    }
  }

  lemma NewTake(conf: Conf, s: State, e: Event, t: State, n: NodeId, b: Ballot)
    requires Enabled(conf, s, e) && t == Apply(s, e) && ProposalsOk(conf, s) && !Took(s, n, b) && Took(t, n, b)
    ensures TookOk(conf, t, n, b)
  {
    assert ProposalOk(conf, s, b);
  }

  lemma AcksKept(conf: Conf, clean: bool, s: State, e: Event, t: State)
    requires Enabled(conf, s, e) && t == Apply(s, e)
    requires SlotsOk(conf, clean, s) && ProposalsOk(conf, s) && TakesOk(conf, s) && AcksOk(conf, s)
    ensures AcksOk(conf, t)
  {
    StepGrows(conf, s, e, t);
    hide SlotsOk, ProposalsOk, Keeps, Enabled, Apply;
    forall n: NodeId, b: Ballot | Acked(t, n, b) ensures AckOk(conf, t, n, b) {
      if Acked(s, n, b) {
        assert Took(s, n, b) && TookOk(conf, s, n, b) && AckOk(conf, s, n, b);
        InstallMoves(conf, s, e, t, n);
        PositiveBallots(conf, s);
        KeepsOn(conf, clean, s, e, t, n, s.proposals[b].gen, b);
      } else {
        NewAck(conf, clean, s, e, t, n, b);
      }
    }
  }

  lemma NewAck(conf: Conf, clean: bool, s: State, e: Event, t: State, n: NodeId, b: Ballot)
    requires Enabled(conf, s, e) && t == Apply(s, e) && SlotsOk(conf, clean, s) && !Acked(s, n, b) && Acked(t, n, b)
    ensures AckOk(conf, t, n, b)
  {
  }

  lemma HoldsKept(conf: Conf, clean: bool, s: State, e: Event, t: State)
    requires Enabled(conf, s, e) && t == Apply(s, e) && SlotsOk(conf, clean, s) && ProposalsOk(conf, s) && HoldsOk(conf, clean, s)
    ensures HoldsOk(conf, clean, t)
  {
    StepGrows(conf, s, e, t);
    hide SlotsOk, ProposalsOk, Keeps, Enabled, Apply, Stays;
    forall g: nat, n: NodeId, b: Ballot | HeldAt(t, g, n, b) ensures HoldOk(conf, clean, t, g, n, b) {
      if HeldAt(s, g, n, b) {
        assert HoldOk(conf, clean, s, g, n, b);
        InstallMoves(conf, s, e, t, n);
        KeepsOn(conf, clean, s, e, t, n, g, b);
      } else {
        NewHold(conf, clean, s, e, t, g, n, b);
      }
    }
  }

  lemma NewHold(conf: Conf, clean: bool, s: State, e: Event, t: State, g: nat, n: NodeId, b: Ballot)
    requires Enabled(conf, s, e) && t == Apply(s, e) && SlotsOk(conf, clean, s) && !HeldAt(s, g, n, b) && HeldAt(t, g, n, b)
    ensures HoldOk(conf, clean, t, g, n, b)
  {
    assert SlotOk(conf, clean, s, n);
  }

  /** A new promise shows whatever its acceptor keeps. */
  lemma NewPromiseShows(conf: Conf, s: State, e: Event, t: State, m: PromiseMsg, g: nat, b: Ballot)
    requires Enabled(conf, s, e) && t == Apply(s, e) && m in t.promises && m !in s.promises
    requires m.from in s.inst && m.from in s.slots && Keeps(conf, s, m.from, g, b)
    ensures Shows(conf, m, g, b)
  {
    if Stays(conf, m.from, g, m.gen) {
      var x := s.slots[m.from];
      RememberedGrows(s.purges, m.seen, b, x.Accepted(), x.Promised() + 1, m.ballot);
    }
  }

  lemma MemoryKept(conf: Conf, clean: bool, s: State, e: Event, t: State)
    requires Enabled(conf, s, e) && t == Apply(s, e)
    requires SlotsOk(conf, clean, s) && PromisesOk(conf, clean, s) && AcksOk(conf, s) && TakesOk(conf, s)
      && PromisesRemember(conf, s)
    ensures PromisesRemember(conf, t)
  {
    StepGrows(conf, s, e, t);
    hide SlotsOk, Shows, Enabled, Apply, AckOk, TookOk, PromiseOk;
    forall m, b: Ballot | m in t.promises && Acked(t, m.from, b) && b in t.proposals
      ensures Shows(conf, m, t.proposals[b].gen, b)
    {
      if m !in s.promises {
        OneAtATime(conf, s, e, t, m, b);
        AckStands(conf, s, m.from, b);
        NewPromiseShows(conf, s, e, t, m, s.proposals[b].gen, b);
      } else if !Acked(s, m.from, b) {
        NewAckIsAbove(conf, clean, s, e, t, m, b);
      } else {
        AckStands(conf, s, m.from, b);
      }
    }
  }

  lemma AckStands(conf: Conf, s: State, n: NodeId, b: Ballot)
    requires AcksOk(conf, s) && Acked(s, n, b)
    ensures AckOk(conf, s, n, b)
  {
  }

  lemma OneAtATime(conf: Conf, s: State, e: Event, t: State, m: PromiseMsg, b: Ballot)
    requires Enabled(conf, s, e) && t == Apply(s, e) && m in t.promises && m !in s.promises && Acked(t, m.from, b)
    ensures Acked(s, m.from, b)
  {
  }

  lemma NewAckIsAbove(conf: Conf, clean: bool, s: State, e: Event, t: State, m: PromiseMsg, b: Ballot)
    requires Enabled(conf, s, e) && t == Apply(s, e) && SlotsOk(conf, clean, s) && PromisesOk(conf, clean, s)
    requires m in s.promises && Acked(t, m.from, b) && !Acked(s, m.from, b) && b in t.proposals
    ensures Shows(conf, m, t.proposals[b].gen, b)
  {
    assert PromiseOk(conf, clean, s, m);
    assert SlotOk(conf, clean, s, m.from);
  }

  lemma HoldMemoryKept(conf: Conf, clean: bool, s: State, e: Event, t: State)
    requires Enabled(conf, s, e) && t == Apply(s, e)
    requires SlotsOk(conf, clean, s) && PromisesOk(conf, clean, s) && HoldsOk(conf, clean, s) && PromisesShowHolds(conf, s)
    ensures PromisesShowHolds(conf, t)
  {
    StepGrows(conf, s, e, t);
    hide SlotsOk, Shows, Enabled, Apply, HoldOk, PromiseOk;
    forall m, g: nat, b: Ballot | m in t.promises && HeldAt(t, g, m.from, b)
      ensures Shows(conf, m, g, b)
    {
      if m !in s.promises {
        HoldBefore(conf, clean, s, e, t, m, g, b);
        NewPromiseShows(conf, s, e, t, m, g, b);
      } else if !HeldAt(s, g, m.from, b) {
        NewHoldIsShown(conf, clean, s, e, t, m, g, b);
      }
    }
  }

  lemma HoldBefore(conf: Conf, clean: bool, s: State, e: Event, t: State, m: PromiseMsg, g: nat, b: Ballot)
    requires Enabled(conf, s, e) && t == Apply(s, e) && HoldsOk(conf, clean, s) && m in t.promises && m !in s.promises
      && HeldAt(t, g, m.from, b)
    ensures m.from in s.inst && m.from in s.slots && Keeps(conf, s, m.from, g, b)
  {
    assert HeldAt(s, g, m.from, b);
    hide Apply, Enabled, Keeps;
    assert HoldOk(conf, clean, s, g, m.from, b);
  }

  lemma NewHoldIsShown(conf: Conf, clean: bool, s: State, e: Event, t: State, m: PromiseMsg, g: nat, b: Ballot)
    requires Enabled(conf, s, e) && t == Apply(s, e) && SlotsOk(conf, clean, s) && PromisesOk(conf, clean, s)
    requires m in s.promises && HeldAt(t, g, m.from, b) && !HeldAt(s, g, m.from, b)
    ensures Shows(conf, m, g, b)
  {
    assert PromiseOk(conf, clean, s, m);
    assert SlotOk(conf, clean, s, m.from);
  }

  lemma RisesKept(conf: Conf, clean: bool, s: State, e: Event, t: State)
    requires Enabled(conf, s, e) && t == Apply(s, e) && SlotsOk(conf, clean, s) && PromisesOk(conf, clean, s) && PromisesRise(s)
    ensures PromisesRise(t)
  {
    hide SlotsOk, PromiseOk, Enabled, Apply;
    forall m, m' | m in t.promises && m' in t.promises && m.from == m'.from && m'.gen == m.gen + 1
      ensures m.ballot < m'.ballot
    {
      if m in s.promises && m' !in s.promises {
        NewPromiseRises(conf, clean, s, e, t, m, m');
      } else if m !in s.promises {
        NewPromiseAlone(conf, s, e, t, m, m');
        NewPromiseIsLater(conf, clean, s, e, t, m, m');
      }
    }
  }

  lemma NewPromiseAlone(conf: Conf, s: State, e: Event, t: State, m: PromiseMsg, m': PromiseMsg)
    requires Enabled(conf, s, e) && t == Apply(s, e) && m in t.promises && m !in s.promises && m' in t.promises && m'.gen != m.gen
    ensures m' in s.promises
  {
  }

  lemma NewPromiseIsLater(conf: Conf, clean: bool, s: State, e: Event, t: State, m: PromiseMsg, m': PromiseMsg)
    requires Enabled(conf, s, e) && t == Apply(s, e) && PromisesOk(conf, clean, s)
    requires m in t.promises && m !in s.promises && m' in s.promises && m.from == m'.from
    ensures m'.gen <= m.gen
  {
    assert PromiseOk(conf, clean, s, m');
  }

  lemma NewPromiseRises(conf: Conf, clean: bool, s: State, e: Event, t: State, m: PromiseMsg, m': PromiseMsg)
    requires Enabled(conf, s, e) && t == Apply(s, e) && SlotsOk(conf, clean, s) && PromisesOk(conf, clean, s)
    requires m in s.promises && m' in t.promises && m' !in s.promises && m.from == m'.from && m'.gen == m.gen + 1
    ensures m.ballot < m'.ballot
  {
    assert PromiseOk(conf, clean, s, m);
    assert Stays(conf, m.from, m.gen, m'.gen);
  }

  lemma BlankPlaced(conf: Conf, s: State, e: Event, t: State, g: nat, n: NodeId)
    requires Enabled(conf, s, e) && t == Apply(s, e) && BlanksOk(s) && BlankAt(t, g, n)
    ensures n in t.inst && g <= t.inst[n]
  {
    assert BlankAt(s, g, n) || (e.ScanAt? && n == e.n && g == s.inst[n]);
  }

  lemma OldBlankOk(s: State, t: State, g: nat, n: NodeId, m: PromiseMsg)
    requires BlankOk(s, g, n, m) && s.purges <= t.purges
    ensures BlankOk(t, g, n, m)
  {
    var p :| p in s.purges && p.gen <= g && m.ballot <= p.ballot;
    assert p in t.purges;
  }

  lemma BlanksKept(conf: Conf, clean: bool, s: State, e: Event, t: State)
    requires Enabled(conf, s, e) && t == Apply(s, e)
    requires SlotsOk(conf, clean, s) && PromisesOk(conf, clean, s) && BlanksOk(s) && PurgesOk(conf, clean, s)
    ensures BlanksOk(t)
  {
    StepGrows(conf, s, e, t);
    hide SlotsOk, PromisesOk, PurgesOk, Enabled, Apply, BlankOk, BlankAt;
    forall g: nat, n: NodeId | BlankAt(t, g, n) ensures n in t.inst && g <= t.inst[n] {
      BlankPlaced(conf, s, e, t, g, n);
    }
    forall m | m in t.promises && BlankAt(t, m.gen + 1, m.from) ensures BlankOk(t, m.gen + 1, m.from, m) {
      if m in s.promises && BlankAt(s, m.gen + 1, m.from) {
        OldBlankOk(s, t, m.gen + 1, m.from, m);
      } else {
        NewBlank(conf, clean, s, e, t, m);
      }
    }
  }

  lemma NewPromiseNotBlank(conf: Conf, s: State, e: Event, t: State, m: PromiseMsg)
    requires Enabled(conf, s, e) && t == Apply(s, e) && BlanksOk(s) && m in t.promises && m !in s.promises
    ensures !BlankAt(t, m.gen + 1, m.from)
  {
    assert BlankAt(t, m.gen + 1, m.from) <==> BlankAt(s, m.gen + 1, m.from);
  }

  lemma NewBlank(conf: Conf, clean: bool, s: State, e: Event, t: State, m: PromiseMsg)
    requires Enabled(conf, s, e) && t == Apply(s, e)
    requires SlotsOk(conf, clean, s) && PromisesOk(conf, clean, s) && BlanksOk(s) && PurgesOk(conf, clean, s)
    requires m in t.promises && BlankAt(t, m.gen + 1, m.from) && !(m in s.promises && BlankAt(s, m.gen + 1, m.from))
    ensures BlankOk(t, m.gen + 1, m.from, m)
  {
    if m !in s.promises {
      NewPromiseNotBlank(conf, s, e, t, m);
    }
    assert PromiseOk(conf, clean, s, m);
    assert Stays(conf, m.from, m.gen, m.gen + 1);
    var p :| p in s.purges && m.ballot <= p.ballot;
    assert PurgeOk(conf, s, p);
    assert p in t.purges;
  }

  lemma FromQuorumGrows(conf: Conf, s: State, t: State, b: Ballot, q: set<NodeId>, p: Proposal, seen: set<PurgeMsg>)
    requires FromQuorum(conf, s, b, q, p, seen) && s.promises <= t.promises
    ensures FromQuorum(conf, t, b, q, p, seen)
  {
    forall n | n in q ensures exists m :: Promised(t, p.gen, n, b, m) && m.accepted <= p.base && m.seen <= seen {
      var m :| Promised(s, p.gen, n, b, m) && m.accepted <= p.base && m.seen <= seen;
      assert Promised(t, p.gen, n, b, m);
    }
    var n, m :| n in q && Promised(s, p.gen, n, b, m) && m.accepted == p.base && m.value == p.cur && m.seen <= seen;
    assert Promised(t, p.gen, n, b, m);
  }

  lemma OldProposalOk(conf: Conf, s: State, t: State, b: Ballot)
    requires b in s.proposals && ProposalOk(conf, s, b) && Grows(s, t)
    ensures b in t.proposals && ProposalOk(conf, t, b)
  {
    var q :| FromQuorum(conf, s, b, q, s.proposals[b], s.made[b].seen);
    hide FromQuorum;
    FromQuorumGrows(conf, s, t, b, q, s.proposals[b], s.made[b].seen);
  }

  /** Where the register is already synced, or every voter has answered, a majority has
      moved past every earlier generation. */
  lemma SyncedHasMoved(conf: Conf, s: State, g: nat, k: nat)
    requires TakesOk(conf, s) && BlanksOk(s) && g < k && Synced(conf, s, k)
    ensures MajorityGone(conf, MovedPast(s, g), k)
  {
    if b :| ChosenAt(conf, s, k, b) {
      var q :| IsQuorum(q, conf[k]) && AckedBy(s, b, q);
      forall n | n in q ensures n in MovedPast(s, g) {
        assert Acked(s, n, b) && Took(s, n, b) && TookOk(conf, s, n, b);
      }
      assert q <= MovedPast(s, g);
    } else {
      var q :| IsQuorum(q, conf[k]) && BlankBy(s, k, q);
      forall n | n in q ensures n in MovedPast(s, g) {
        assert BlankAt(s, k, n);
      }
      assert q <= MovedPast(s, g);
    }
  }

  lemma HoldersHaveMoved(conf: Conf, clean: bool, s: State, g: nat, m: PurgeMsg)
    requires GoodConf(conf) && HoldsOk(conf, clean, s) && PurgeOk(conf, s, m) && g < m.gen
    ensures conf[m.gen] <= MovedPast(s, g) && MajorityGone(conf, MovedPast(s, g), m.gen)
  {
    forall n | n in conf[m.gen] ensures n in MovedPast(s, g) {
      assert HeldAt(s, m.gen, n, m.ballot) && HoldOk(conf, clean, s, m.gen, n, m.ballot);
    }
    assert IsQuorum(conf[m.gen], conf[m.gen]);
  }

  lemma NewProposalOk(conf: Conf, clean: bool, s: State, e: Event, t: State)
    requires Enabled(conf, s, e) && t == Apply(s, e) && e.Propose?
    requires GoodConf(conf) && TakesOk(conf, s) && HoldsOk(conf, clean, s) && BlanksOk(s) && PurgesOk(conf, clean, s)
      && AllSynced(conf, s)
    ensures ProposalOk(conf, t, e.b)
  {
    FromQuorumGrows(conf, s, t, e.b, e.q, e.p, s.purges);
    hide FromQuorum, Synced, HoldsOk, TakesOk, BlanksOk, HeldByAll;
    var gone := t.made[e.b].gone;
    assert gone == MovedPast(s, e.p.gen) && t.made[e.b].seen == s.purges;
    forall p | p in s.purges && e.p.gen < p.gen
      ensures p.gen < |conf| && conf[p.gen] <= gone && forall k :: e.p.gen < k <= p.gen ==> MajorityGone(conf, gone, k)
    {
      assert PurgeOk(conf, s, p);
      HoldersHaveMoved(conf, clean, s, e.p.gen, p);
      forall k | e.p.gen < k <= p.gen ensures MajorityGone(conf, gone, k) {
        if k < p.gen {
          SyncedHasMoved(conf, s, e.p.gen, k);
        }
      }
    }
    assert GoneOk(conf, t, e.b);
  }

  lemma ProposalsKept(conf: Conf, clean: bool, s: State, e: Event, t: State)
    requires Enabled(conf, s, e) && t == Apply(s, e) && ProposalsOk(conf, s)
    requires GoodConf(conf) && TakesOk(conf, s) && HoldsOk(conf, clean, s) && BlanksOk(s) && PurgesOk(conf, clean, s)
      && AllSynced(conf, s)
    ensures ProposalsOk(conf, t)
  {
    StepGrows(conf, s, e, t);
    NewProposals(conf, s, e, t);
    hide Enabled, Apply, ProposalOk, Grows, TakesOk, HoldsOk, BlanksOk, PurgesOk, AllSynced;
    forall b | b in t.proposals ensures ProposalOk(conf, t, b) {
      if b in s.proposals {
        OldProposalOk(conf, s, t, b);
      } else {
        NewProposalOk(conf, clean, s, e, t);
      }
    }
  }

  lemma NewProposals(conf: Conf, s: State, e: Event, t: State)
    requires Enabled(conf, s, e) && t == Apply(s, e)
    ensures forall b :: b in t.proposals && b !in s.proposals ==> e.Propose? && e.b == b
  {
  }

  lemma PurgesKept(conf: Conf, clean: bool, s: State, e: Event, t: State)
    requires Allowed(conf, clean, s, e) && t == Apply(s, e)
    requires GoodConf(conf) && SlotsOk(conf, clean, s) && HoldsOk(conf, clean, s) && PurgesOk(conf, clean, s)
    ensures PurgesOk(conf, clean, t)
  {
    StepGrows(conf, s, e, t);
    forall m | m in t.purges ensures PurgeOk(conf, t, m) {
      if m in s.purges {
        assert PurgeOk(conf, s, m);
      } else {
        var n :| n in conf[m.gen];
        assert HeldAt(s, m.gen, n, m.ballot) && HoldOk(conf, clean, s, m.gen, n, m.ballot);
        assert SlotOk(conf, clean, s, n);
      }
      assert HeldByAll(conf, t, m.gen, m.ballot);
    }
  }

  lemma ChosenGrows(conf: Conf, s: State, t: State, b: Ballot)
    requires Chosen(conf, s, b) && Grows(s, t)
    ensures Chosen(conf, t, b)
  {
    var q :| IsQuorum(q, conf[s.proposals[b].gen]) && AckedBy(s, b, q);
    assert AckedBy(t, b, q);
  }

  lemma SyncedGrows(conf: Conf, s: State, t: State, g: nat)
    requires Synced(conf, s, g) && Grows(s, t)
    ensures Synced(conf, t, g)
  {
    if b :| ChosenAt(conf, s, g, b) {
      ChosenGrows(conf, s, t, b);
      assert ChosenAt(conf, t, g, b);
    } else {
      var q :| IsQuorum(q, conf[g]) && BlankBy(s, g, q);
      assert BlankBy(t, g, q);
    }
  }

  lemma SyncsKept(conf: Conf, s: State, e: Event, t: State)
    requires Enabled(conf, s, e) && t == Apply(s, e) && AllSynced(conf, s)
    ensures AllSynced(conf, t)
  {
    StepGrows(conf, s, e, t);
    forall g | 0 < g < t.current ensures Synced(conf, t, g) {
      SyncedGrows(conf, s, t, g);
    }
  }

  // ---- single facts of the invariant ----

  lemma ProposalFact(conf: Conf, clean: bool, s: State, b: Ballot) returns (q: set<NodeId>)
    requires Inv(conf, clean, s) && b in s.proposals
    ensures ProposalOk(conf, s, b) && b in s.made && s.proposals[b].gen <= s.current < |conf| && b > 0
    ensures FromQuorum(conf, s, b, q, s.proposals[b], s.made[b].seen)
  {
    hide PromisesOk, TakesOk, AcksOk, HoldsOk, PromisesRemember, PromisesShowHolds, PromisesRise, BlanksOk, PurgesOk, FreshBallots, AllSynced;
    assert ProposalOk(conf, s, b);
    q :| FromQuorum(conf, s, b, q, s.proposals[b], s.made[b].seen);
  }

  lemma PromiseFact(conf: Conf, clean: bool, s: State, m: PromiseMsg)
    requires Inv(conf, clean, s) && m in s.promises
    ensures PromiseOk(conf, clean, s, m)
    ensures BlankAt(s, m.gen + 1, m.from) ==> BlankOk(s, m.gen + 1, m.from, m)
  {
    hide PromiseOk, BlankOk, SlotsOk, TakesOk, AcksOk, HoldsOk, PromisesRemember, PromisesShowHolds, PromisesRise, ProposalsOk, PurgesOk, FreshBallots, AllSynced;
  }

  lemma MemoryFact(conf: Conf, clean: bool, s: State, m: PromiseMsg, b: Ballot)
    requires Inv(conf, clean, s) && m in s.promises && Acked(s, m.from, b) && b in s.proposals
    ensures Shows(conf, m, s.proposals[b].gen, b)
  {
    hide PromisesOk, Shows, SlotsOk, TakesOk, AcksOk, HoldsOk, PromisesShowHolds, PromisesRise, BlanksOk, ProposalsOk, PurgesOk, FreshBallots, AllSynced;
  }

  lemma HoldMemoryFact(conf: Conf, clean: bool, s: State, m: PromiseMsg, g: nat, b: Ballot)
    requires Inv(conf, clean, s) && m in s.promises && HeldAt(s, g, m.from, b)
    ensures Shows(conf, m, g, b)
  {
    hide PromisesOk, Shows, SlotsOk, TakesOk, AcksOk, HoldsOk, PromisesRemember, PromisesRise, BlanksOk, ProposalsOk, PurgesOk, FreshBallots, AllSynced;
  }

  lemma RiseFact(conf: Conf, clean: bool, s: State, m: PromiseMsg, m': PromiseMsg)
    requires Inv(conf, clean, s) && m in s.promises && m' in s.promises && m.from == m'.from && m'.gen == m.gen + 1
    ensures m.ballot < m'.ballot
  {
    hide PromisesOk, SlotsOk, TakesOk, AcksOk, HoldsOk, PromisesRemember, PromisesShowHolds, BlanksOk, ProposalsOk, PurgesOk, FreshBallots, AllSynced;
  }

  lemma SyncFact(conf: Conf, clean: bool, s: State, g: nat)
    requires Inv(conf, clean, s) && 0 < g < s.current
    ensures Synced(conf, s, g)
  {
    hide PromisesOk, Synced, SlotsOk, TakesOk, AcksOk, HoldsOk, PromisesRemember, PromisesShowHolds, PromisesRise, BlanksOk, ProposalsOk, PurgesOk, FreshBallots;
  }

  lemma FreshFact(conf: Conf, clean: bool, s: State, c: Ballot, m: PurgeMsg)
    requires Inv(conf, clean, s) && c in s.proposals && m in s.purges && m.gen < s.proposals[c].gen
    ensures m.ballot < c
  {
    hide PromisesOk, SlotsOk, TakesOk, AcksOk, HoldsOk, PromisesRemember, PromisesShowHolds, PromisesRise, BlanksOk, ProposalsOk, PurgesOk, AllSynced;
  }

  lemma PurgeFact(conf: Conf, clean: bool, s: State, m: PurgeMsg)
    requires Inv(conf, clean, s) && m in s.purges
    ensures clean && m.gen <= s.current && HeldByAll(conf, s, m.gen, m.ballot)
  {
    hide PromisesOk, SlotsOk, TakesOk, AcksOk, HoldsOk, PromisesRemember, PromisesShowHolds, PromisesRise, BlanksOk, ProposalsOk, FreshBallots, AllSynced;
    assert PurgeOk(conf, s, m);
  }

  lemma HoldFact(conf: Conf, clean: bool, s: State, g: nat, n: NodeId, b: Ballot)
    requires Inv(conf, clean, s) && HeldAt(s, g, n, b)
    ensures HoldOk(conf, clean, s, g, n, b)
  {
    hide PromisesOk, SlotsOk, TakesOk, AcksOk, HoldOk, PromisesRemember, PromisesShowHolds, PromisesRise, BlanksOk, ProposalsOk, PurgesOk, FreshBallots, AllSynced;
  }

  lemma TookFact(conf: Conf, clean: bool, s: State, n: NodeId, b: Ballot)
    requires Inv(conf, clean, s) && Took(s, n, b)
    ensures TookOk(conf, s, n, b)
  {
    hide PromisesOk, SlotsOk, TookOk, AcksOk, HoldsOk, PromisesRemember, PromisesShowHolds, PromisesRise, BlanksOk, ProposalsOk, PurgesOk, FreshBallots, AllSynced;
  }

  lemma SlotFact(conf: Conf, clean: bool, s: State, n: NodeId)
    requires Inv(conf, clean, s) && n in s.slots
    ensures n in s.inst && SlotOk(conf, clean, s, n) && s.current < |conf|
  {
    hide PromisesOk, SlotOk, TakesOk, AcksOk, HoldsOk, PromisesRemember, PromisesShowHolds, PromisesRise, BlanksOk, ProposalsOk, PurgesOk, FreshBallots, AllSynced;
  }

  // ---- ballots follow generations ----

  /** A finished prepare at g+1 met every finished prepare at g. */
  lemma NextGenerationIsAbove(conf: Conf, clean: bool, s: State, b: Ballot, c: Ballot)
    requires GoodConf(conf) && Inv(conf, clean, s) && b in s.proposals && c in s.proposals
    requires s.proposals[c].gen == s.proposals[b].gen + 1
    ensures b < c
  {
    hide Inv;
    var g := s.proposals[b].gen;
    var q := ProposalFact(conf, clean, s, b);
    var q' := ProposalFact(conf, clean, s, c);
    hide ProposalOk;
    var n := AdjacentQuorumsMeet(q, q', conf[g], conf[g + 1]);
    var m :| Promised(s, g, n, b, m);
    var m' :| Promised(s, g + 1, n, c, m');
    RiseFact(conf, clean, s, m, m');
  }

  /** A purge at or above b, sent by proposers of a generation up to g. */
  ghost predicate PurgedBy(s: State, b: Ballot, g: nat)
  {
    exists p :: p in s.purges && p.gen <= g && b <= p.ballot
  }

  /** A scan under the voters of g that does not list the register: whatever was proposed
      under earlier ones is at or below a ballot that was purged. */
  lemma {:induction false} BlankMeansPurged(conf: Conf, clean: bool, s: State, g: nat, b: Ballot)
    requires GoodConf(conf) && Inv(conf, clean, s) && ScannedBlank(conf, s, g) && g <= s.current
    requires b in s.proposals
    ensures s.proposals[b].gen >= g || PurgedBy(s, b, g)
    decreases g, 0
  {
    hide Inv;
    var h := s.proposals[b].gen;
    if h + 1 == g {
      BlankAfterProposal(conf, clean, s, g, b);
    } else if h < g {
      var h' := g - 1;
      SyncFact(conf, clean, s, h');
      if e: Ballot :| ChosenAt(conf, s, h', e) {
        BlankAfterProposal(conf, clean, s, g, e);
        GenerationsAreOrdered(conf, clean, s, b, e);
        var p :| p in s.purges && p.gen <= g && e <= p.ballot;
        assert PurgedBy(s, b, g);
      } else {
        BlankMeansPurged(conf, clean, s, g - 1, b);
        var p :| p in s.purges && p.gen <= g - 1 && b <= p.ballot;
        assert PurgedBy(s, b, g);
      }
    }
  }

  lemma BlankAfterProposal(conf: Conf, clean: bool, s: State, g: nat, b: Ballot)
    requires GoodConf(conf) && Inv(conf, clean, s) && b in s.proposals && s.proposals[b].gen + 1 == g < |conf|
    requires ScannedBlank(conf, s, g)
    ensures PurgedBy(s, b, g)
  {
    hide Inv;
    var q := ProposalFact(conf, clean, s, b);
    hide ProposalOk;
    var q' :| IsQuorum(q', conf[g]) && BlankBy(s, g, q');
    var n := AdjacentQuorumsMeet(q, q', conf[g - 1], conf[g]);
    var m :| Promised(s, g - 1, n, b, m);
    assert BlankAt(s, g, n);
    PromiseFact(conf, clean, s, m);
  }

  /** Ballots of finished prepares rise with the generation. */
  lemma {:induction false} GenerationsAreOrdered(conf: Conf, clean: bool, s: State, b: Ballot, c: Ballot)
    requires GoodConf(conf) && Inv(conf, clean, s) && b in s.proposals && c in s.proposals
    requires s.proposals[b].gen < s.proposals[c].gen
    ensures b < c
    decreases s.proposals[c].gen, 1
  {
    hide Inv;
    var q := ProposalFact(conf, clean, s, c);
    hide ProposalOk;
    var g := s.proposals[c].gen - 1;
    if s.proposals[b].gen == g {
      NextGenerationIsAbove(conf, clean, s, b, c);
    } else {
      SyncFact(conf, clean, s, g);
      if e :| ChosenAt(conf, s, g, e) {
        GenerationsAreOrdered(conf, clean, s, b, e);
        NextGenerationIsAbove(conf, clean, s, e, c);
      } else {
        BlankMeansPurged(conf, clean, s, g, b);
        var p :| p in s.purges && p.gen <= g && b <= p.ballot;
        FreshFact(conf, clean, s, c, p);
      }
    }
  }

  // ---- runs ----

  lemma NewPurgeIsBelow(conf: Conf, clean: bool, s: State, g: nat, d: Ballot, c: Ballot)
    requires GoodConf(conf) && Inv(conf, clean, s) && clean && HeldByAll(conf, s, g, d) && c in s.proposals
      && g < s.proposals[c].gen
    ensures d < c
  {
    hide Inv;
    var n :| n in conf[g];
    assert HeldAt(s, g, n, d);
    HoldFact(conf, clean, s, g, n, d);
    GenerationsAreOrdered(conf, clean, s, d, c);
  }

  /** In a clean run every voter asked held what is purged. */
  lemma NewPurgeIsHeld(conf: Conf, clean: bool, s: State, e: Event, t: State, m: PurgeMsg)
    requires Allowed(conf, clean, s, e) && t == Apply(s, e) && m in t.purges && m !in s.purges
    ensures clean && HeldByAll(conf, s, m.gen, m.ballot) && t.proposals == s.proposals
  {
  }

  /** A purge is sent before every voter asked has answered only when a voter was removed meanwhile. */
  lemma EarlyOnlyWhenShrunk(conf: Conf, s: State, e: Event)
    requires Enabled(conf, s, e) && e.SendPurge? && e.g < |conf| && e.h < |conf|
    ensures !HeardAll(conf, e) ==> |conf[e.h]| < |conf[e.g]|
  {
    SubsetSize(e.q, conf[e.g]);
    if |e.q| == |conf[e.g]| { assert conf[e.g] == e.q + (conf[e.g] - e.q); }
  }

  lemma FreshKept(conf: Conf, clean: bool, s: State, e: Event, t: State)
    requires Allowed(conf, clean, s, e) && t == Apply(s, e) && GoodConf(conf) && Inv(conf, clean, s)
    ensures FreshBallots(t)
  {
    hide Inv, HeldByAll, FromQuorum;
    forall c, m | c in t.proposals && m in t.purges && m.gen < t.proposals[c].gen ensures m.ballot < c {
      if m !in s.purges {
        NewPurgeIsHeld(conf, clean, s, e, t, m);
        NewPurgeIsBelow(conf, clean, s, m.gen, m.ballot, c);
      } else {
        PurgeFact(conf, clean, s, m);
        if c in s.proposals {
          FreshFact(conf, clean, s, c, m);
        }
      }
    }
  }

  lemma KeptTogether(conf: Conf, clean: bool, s: State, e: Event, t: State)
    requires Allowed(conf, clean, s, e) && t == Apply(s, e) && GoodConf(conf) && Inv(conf, clean, s)
    ensures Inv(conf, clean, t)
  {
    FreshKept(conf, clean, s, e, t);
    hide GoodConf, SlotsOk, PromisesOk, TakesOk, AcksOk, HoldsOk, PromisesRemember, PromisesShowHolds, PromisesRise, BlanksOk, ProposalsOk, PurgesOk, FreshBallots, AllSynced, Enabled, CleanStep, Apply;
    SlotsKept(conf, clean, s, e, t);
    PromisesKept(conf, clean, s, e, t);
    TakesKept(conf, clean, s, e, t);
    AcksKept(conf, clean, s, e, t);
    HoldsKept(conf, clean, s, e, t);
    MemoryKept(conf, clean, s, e, t);
    HoldMemoryKept(conf, clean, s, e, t);
    RisesKept(conf, clean, s, e, t);
    BlanksKept(conf, clean, s, e, t);
    ProposalsKept(conf, clean, s, e, t);
    PurgesKept(conf, clean, s, e, t);
    SyncsKept(conf, s, e, t);
  }

  ghost predicate AllowedNext(conf: Conf, clean: bool, s: State, t: State)
  {
    exists e :: Allowed(conf, clean, s, e) && t == Apply(s, e)
  }

  lemma StepKeeps(conf: Conf, clean: bool, s: State, t: State)
    requires GoodConf(conf) && Inv(conf, clean, s) && AllowedNext(conf, clean, s, t)
    ensures Inv(conf, clean, t) && Grows(s, t)
  {
    hide Inv;
    var e :| Allowed(conf, clean, s, e) && t == Apply(s, e);
    StepGrows(conf, s, e, t);
    KeptTogether(conf, clean, s, e, t);
  }

  lemma InitInv(conf: Conf, clean: bool, nodes: set<NodeId>, s: State)
    requires GoodConf(conf) && Init(nodes, s)
    ensures Inv(conf, clean, s)
  {
  }

  ghost predicate IsRun(conf: Conf, nodes: set<NodeId>, run: seq<State>)
  {
    && GoodConf(conf) && |run| > 0
    && Init(nodes, run[0])
    && forall i :: 0 < i < |run| ==> Next(conf, run[i - 1], run[i])
  }

  ghost predicate CleanSteps(conf: Conf, run: seq<State>)
  {
    forall i :: 0 < i < |run| ==> CleanNext(conf, run[i - 1], run[i])
  }

  /** A run in which the register is never purged, or every step is clean. */
  ghost predicate GoodRun(conf: Conf, nodes: set<NodeId>, run: seq<State>)
  {
    IsRun(conf, nodes, run) && (run[|run| - 1].purges == {} || CleanSteps(conf, run))
  }

  lemma GoodStep(conf: Conf, nodes: set<NodeId>, run: seq<State>, clean: bool, j: nat)
    requires IsRun(conf, nodes, run) && 0 < j < |run|
    requires if clean then CleanSteps(conf, run) else run[j].purges == {}
    ensures AllowedNext(conf, clean, run[j - 1], run[j])
    ensures !clean ==> run[j - 1].purges == {}
  {
    var s, t := run[j - 1], run[j];
    assert Next(conf, s, t);
    if clean {
      assert CleanNext(conf, s, t);
      var e :| Enabled(conf, s, e) && CleanStep(conf, s, e) && t == Apply(s, e);
      assert Allowed(conf, clean, s, e);
    } else {
      var e :| Enabled(conf, s, e) && t == Apply(s, e);
      StepGrows(conf, s, e, t);
      assert Allowed(conf, clean, s, e);
    }
  }

  lemma {:induction false} RunInv(conf: Conf, nodes: set<NodeId>, run: seq<State>, clean: bool, i: nat)
    requires IsRun(conf, nodes, run) && i < |run|
    requires if clean then CleanSteps(conf, run) else run[i].purges == {}
    ensures Inv(conf, clean, run[i])
    decreases i
  {
    hide Inv, Next, CleanSteps, AllowedNext;
    if i == 0 {
      InitInv(conf, clean, nodes, run[0]);
    } else {
      GoodStep(conf, nodes, run, clean, i);
      RunInv(conf, nodes, run, clean, i - 1);
      StepKeeps(conf, clean, run[i - 1], run[i]);
    }
  }

  lemma {:induction false} RunGrows(conf: Conf, nodes: set<NodeId>, run: seq<State>, i: nat, j: nat)
    requires IsRun(conf, nodes, run) && i <= j < |run|
    ensures Grows(run[i], run[j])
    decreases j
  {
    hide Next, Grows;
    if i < j {
      RunGrows(conf, nodes, run, i, j - 1);
      assert Next(conf, run[j - 1], run[j]);
      NextGrows(conf, run[j - 1], run[j]);
      GrowsOn(run[i], run[j - 1], run[j]);
    } else {
      GrowsSame(run[i]);
    }
  }

  lemma NextGrows(conf: Conf, s: State, t: State)
    requires Next(conf, s, t)
    ensures Grows(s, t)
  {
    var e :| Enabled(conf, s, e) && t == Apply(s, e);
    StepGrows(conf, s, e, t);
  }

  lemma GrowsOn(s: State, t: State, u: State)
    requires Grows(s, t) && Grows(t, u)
    ensures Grows(s, u)
  {
  }

  lemma GrowsSame(s: State)
    ensures Grows(s, s)
  {
  }

  /** Every state of a good run satisfies the invariant of one of the two kinds of run. */
  lemma GoodInv(conf: Conf, nodes: set<NodeId>, run: seq<State>, i: nat) returns (clean: bool)
    requires GoodRun(conf, nodes, run) && i < |run|
    ensures Inv(conf, clean, run[i]) && GoodConf(conf)
  {
    hide Inv, CleanSteps, Next;
    if CleanSteps(conf, run) {
      clean := true;
    } else {
      RunGrows(conf, nodes, run, i, |run| - 1);
      clean := false;
    }
    RunInv(conf, nodes, run, clean, i);
  }

  // ---- agreement across voter changes ----

  /** The proposal was made by a proposer that had missed a voter change: a purge had
      already been sent under later voters.  It can never be chosen. */
  ghost predicate TooLate(s: State, c: Ballot)
  {
    c in s.proposals && c in s.made && exists p :: p in s.made[c].seen && s.proposals[c].gen < p.gen
  }

  lemma ChosenInTime(conf: Conf, clean: bool, s: State, c: Ballot)
    requires GoodConf(conf) && Inv(conf, clean, s) && Chosen(conf, s, c)
    ensures !TooLate(s, c)
  {
    hide Inv;
    if TooLate(s, c) {
      var p :| p in s.made[c].seen && s.proposals[c].gen < p.gen;
      var g := s.proposals[c].gen;
      var _ := ProposalFact(conf, clean, s, c);
      hide FromQuorum;
      assert MajorityGone(conf, s.made[c].gone, g + 1);
      var q' :| IsQuorum(q', conf[g + 1]) && q' <= s.made[c].gone;
      var q :| IsQuorum(q, conf[g]) && AckedBy(s, c, q);
      var n := AdjacentQuorumsMeet(q, q', conf[g], conf[g + 1]);
      assert Acked(s, n, c) && Took(s, n, c);
      TookFact(conf, clean, s, n, c);
    }
  }

  /** The promise that reported the row a proposal started from. */
  lemma BaseReported(conf: Conf, clean: bool, s: State, c: Ballot) returns (m: PromiseMsg)
    requires Inv(conf, clean, s) && c in s.proposals
    ensures c in s.made && s.made[c].seen <= s.purges
    ensures Promised(s, s.proposals[c].gen, m.from, c, m) && m.accepted == s.proposals[c].base && m.value == s.proposals[c].cur
    ensures m.seen <= s.made[c].seen && PromiseOk(conf, clean, s, m)
  {
    hide Inv;
    var p := s.proposals[c];
    var q := ProposalFact(conf, clean, s, c);
    var n: NodeId;
    n, m :| n in q && Promised(s, p.gen, n, c, m) && m.accepted == p.base && m.value == p.cur && m.seen <= s.made[c].seen;
    PromiseFact(conf, clean, s, m);
  }

  lemma BaseIsProposal(conf: Conf, clean: bool, s: State, c: Ballot)
    requires Inv(conf, clean, s) && c in s.proposals
    ensures s.proposals[c].base < c
    ensures s.proposals[c].base > 0 ==>
      s.proposals[c].base in s.proposals && s.proposals[c].cur == s.proposals[s.proposals[c].base].value
    ensures s.proposals[c].base == 0 ==> s.proposals[c].cur == None
  {
    hide Inv;
    var m := BaseReported(conf, clean, s, c);
  }

  /** What a proposal in time starts from was made in time. */
  lemma BaseInTime(conf: Conf, clean: bool, s: State, c: Ballot)
    requires GoodConf(conf) && Inv(conf, clean, s) && c in s.proposals && !TooLate(s, c)
    ensures !TooLate(s, s.proposals[c].base)
  {
    hide Inv;
    var a := s.proposals[c].base;
    var m := BaseReported(conf, clean, s, c);
    if TooLate(s, a) {
      var p :| p in s.made[a].seen && s.proposals[a].gen < p.gen;
      var _ := ProposalFact(conf, clean, s, a);
      hide FromQuorum;
      PurgeFact(conf, clean, s, p);
      assert p in m.seen;
      assert Took(s, m.from, a);
      TookFact(conf, clean, s, m.from, a);
    }
  }

  /** A purged ballot was made in time. */
  lemma PurgedInTime(conf: Conf, clean: bool, s: State, d: PurgeMsg)
    requires GoodConf(conf) && Inv(conf, clean, s) && d in s.purges
    ensures d.ballot in s.proposals && !TooLate(s, d.ballot) && s.proposals[d.ballot].gen <= d.gen && d.ballot > 0
  {
    hide Inv;
    PurgeFact(conf, clean, s, d);
    var b := d.ballot;
    forall n | n in conf[d.gen] ensures Took(s, n, b) && TookOk(conf, s, n, b) && Stays(conf, n, s.proposals[b].gen, d.gen) {
      assert HeldAt(s, d.gen, n, b);
      HoldFact(conf, clean, s, d.gen, n, b);
      TookFact(conf, clean, s, n, b);
    }
    var n :| n in conf[d.gen];
    HoldFact(conf, clean, s, d.gen, n, b);
    if TooLate(s, b) {
      var p :| p in s.made[b].seen && s.proposals[b].gen < p.gen;
      var _ := ProposalFact(conf, clean, s, b);
      var g := s.proposals[b].gen;
      if d.gen == g {
        assert MajorityGone(conf, s.made[b].gone, g + 1);
        var q :| IsQuorum(q, conf[g + 1]) && q <= s.made[b].gone;
        var k := AdjacentQuorumsMeet(conf[g], q, conf[g], conf[g + 1]);
      } else if d.gen <= p.gen {
        assert MajorityGone(conf, s.made[b].gone, d.gen);
        var q :| IsQuorum(q, conf[d.gen]) && q <= s.made[b].gone;
        var k := QuorumsMeet(q, q, conf[d.gen]);
      }
    }
  }

  /** Once d was purged under the voters of some generation, a proposal above d under those
      voters or later ones starts from nothing or from a row at or above d. */
  lemma PurgeHidesBelow(conf: Conf, clean: bool, s: State, c: Ballot, d: PurgeMsg)
    requires GoodConf(conf) && Inv(conf, clean, s) && c in s.proposals && d in s.purges
    requires d.gen <= s.proposals[c].gen && d.ballot < c
    ensures s.proposals[c].base == 0 || s.proposals[c].base >= d.ballot
  {
    hide Inv;
    PurgeFact(conf, clean, s, d);
    var m := BaseReported(conf, clean, s, c);
    if m.accepted > 0 {
      var g := s.proposals[m.accepted].gen;
      if d.gen < g {
        FreshFact(conf, clean, s, m.accepted, d);
      } else {
        assert Stays(conf, m.from, d.gen, m.gen);
        assert HeldAt(s, d.gen, m.from, d.ballot);
        HoldMemoryFact(conf, clean, s, m, d.gen, d.ballot);
      }
    }
  }

  ghost predicate PurgedBetween(s: State, lo: Ballot, hi: Ballot)
  {
    PurgedIn(s.purges, lo, hi)
  }

  /** c starts at or above b, or from nothing after a purge at or above b. */
  ghost predicate StartsAbove(s: State, b: Ballot, c: Ballot)
  {
    c in s.proposals && (s.proposals[c].base >= b || (s.proposals[c].base == 0 && PurgedBetween(s, b, c)))
  }

  lemma StartsAbovePurge(conf: Conf, clean: bool, s: State, b: Ballot, c: Ballot, d: PurgeMsg)
    requires GoodConf(conf) && Inv(conf, clean, s) && c in s.proposals && d in s.purges
    requires d.gen <= s.proposals[c].gen && b <= d.ballot < c
    ensures StartsAbove(s, b, c)
  {
    hide Inv;
    PurgeHidesBelow(conf, clean, s, c, d);
  }

  lemma StartsAtBase(s: State, b: Ballot, c: Ballot)
    requires c in s.proposals && s.proposals[c].base >= b
    ensures StartsAbove(s, b, c)
  {
  }

  /** Within a generation and into the next one, every prepare above a chosen ballot sees it. */
  lemma NearbyProposalsStartAbove(conf: Conf, clean: bool, s: State, b: Ballot, c: Ballot)
    requires GoodConf(conf) && Inv(conf, clean, s) && Chosen(conf, s, b) && c in s.proposals && b < c && !TooLate(s, c)
    requires s.proposals[b].gen <= s.proposals[c].gen <= s.proposals[b].gen + 1
    ensures StartsAbove(s, b, c)
  {
    hide Inv, StartsAbove;
    var g, p := s.proposals[b].gen, s.proposals[c];
    var q :| IsQuorum(q, conf[g]) && AckedBy(s, b, q);
    var q' := ProposalFact(conf, clean, s, c);
    var n: NodeId;
    if p.gen == g {
      n := QuorumsMeet(q, q', conf[g]);
    } else {
      n := AdjacentQuorumsMeet(q, q', conf[g], conf[g + 1]);
    }
    var m :| Promised(s, p.gen, n, c, m) && m.accepted <= p.base && m.seen <= s.made[c].seen;
    assert Acked(s, n, b);
    MemoryFact(conf, clean, s, m, b);
    assert Stays(conf, n, g, p.gen);
    if m.accepted >= b {
      StartsAtBase(s, b, c);
    } else {
      var d :| d in m.seen && b <= d.ballot < c;
      StartsAbovePurge(conf, clean, s, b, c, d);
    }
  }

  /** A value chosen under any voters is seen by every later prepare, however many voter
      changes lie between: each proposal above it starts from a row at or above it, or from
      nothing after a purge at or above it. */
  lemma LaterProposalsStartAbove(conf: Conf, clean: bool, s: State, b: Ballot, c: Ballot)
    requires GoodConf(conf) && Inv(conf, clean, s) && Chosen(conf, s, b) && c in s.proposals && b < c && !TooLate(s, c)
    ensures StartsAbove(s, b, c)
  {
    hide Inv, StartsAbove;
    var g, h := s.proposals[b].gen, s.proposals[c].gen;
    var _ := ProposalFact(conf, clean, s, c);
    hide ProposalOk, FromQuorum;
    if h < g {
      GenerationsAreOrdered(conf, clean, s, c, b);
    } else if h <= g + 1 {
      NearbyProposalsStartAbove(conf, clean, s, b, c);
    } else {
      var k := h - 1;
      SyncFact(conf, clean, s, k);
      if e: Ballot :| ChosenAt(conf, s, k, e) {
        GenerationsAreOrdered(conf, clean, s, b, e);
        NextGenerationIsAbove(conf, clean, s, e, c);
        NearbyProposalsStartAbove(conf, clean, s, e, c);
        StartsAboveLower(s, b, e, c);
      } else {
        BlankMeansPurged(conf, clean, s, k, b);
        var d :| d in s.purges && d.gen <= k && b <= d.ballot;
        FreshFact(conf, clean, s, c, d);
        StartsAbovePurge(conf, clean, s, b, c, d);
      }
    }
  }

  lemma StartsAboveLower(s: State, b: Ballot, e: Ballot, c: Ballot)
    requires StartsAbove(s, e, c) && b <= e
    ensures StartsAbove(s, b, c)
  {
  }

  /** p is where the proposal at b came from: the row it was computed from, or the purged
      tombstone that had emptied the register. */
  ghost predicate Parent(s: State, p: Ballot, b: Ballot)
  {
    && b in s.proposals && 0 < p < b
    && (s.proposals[b].base == p || (s.proposals[b].base == 0 && exists d :: d in s.purges && d.ballot == p))
  }

  ghost predicate Descends(s: State, b: Ballot, anc: Ballot)
    decreases b
  {
    b == anc || exists p: nat :: p < b && Parent(s, p, b) && Descends(s, p, anc)
  }

  lemma {:induction false} ChosenIsAncestor(conf: Conf, clean: bool, s: State, b: Ballot, c: Ballot)
    requires GoodConf(conf) && Inv(conf, clean, s) && Chosen(conf, s, b) && c in s.proposals && b <= c && !TooLate(s, c)
    ensures Descends(s, c, b)
    decreases c
  {
    hide Inv, TooLate;
    if b < c {
      LaterProposalsStartAbove(conf, clean, s, b, c);
      BaseIsProposal(conf, clean, s, c);
      BaseInTime(conf, clean, s, c);
      var _ := ProposalFact(conf, clean, s, b);
      hide ProposalOk, FromQuorum;
      var p := s.proposals[c].base;
      if p < b {
        var d :| d in s.purges && b <= d.ballot < c;
        PurgedInTime(conf, clean, s, d);
        p := d.ballot;
      }
      assert Parent(s, p, c);
      ChosenIsAncestor(conf, clean, s, b, p);
    }
  }

  lemma ChosenStays(conf: Conf, nodes: set<NodeId>, run: seq<State>, i: nat, j: nat, b: Ballot)
    requires IsRun(conf, nodes, run) && i <= j < |run| && Chosen(conf, run[i], b)
    ensures Chosen(conf, run[j], b) && b in run[j].proposals
  {
    hide Next, GoodConf;
    RunGrows(conf, nodes, run, i, j);
    hide Chosen;
    ChosenGrows(conf, run[i], run[j], b);
    ChosenIsProposed(conf, run[j], b);
  }

  lemma ChosenIsProposed(conf: Conf, s: State, b: Ballot)
    requires Chosen(conf, s, b)
    ensures b in s.proposals
  {
  }

  /** Of any two proposals chosen in a good run, under whatever voters, the lower is an
      ancestor of the higher. */
  lemma AgreementAcrossVoterChanges(conf: Conf, nodes: set<NodeId>, run: seq<State>, i: nat, j: nat, b: Ballot, c: Ballot)
    requires GoodRun(conf, nodes, run) && i < |run| && j < |run|
    requires Chosen(conf, run[i], b) && Chosen(conf, run[j], c) && b <= c
    ensures Descends(run[|run| - 1], c, b)
  {
    hide Inv, Next, CleanSteps, TooLate;
    var z := |run| - 1;
    var clean := GoodInv(conf, nodes, run, z);
    ChosenStays(conf, nodes, run, i, z, b);
    ChosenStays(conf, nodes, run, j, z, c);
    ChosenInTime(conf, clean, run[z], c);
    ChosenIsAncestor(conf, clean, run[z], b, c);
  }

  /** When the sync at the current generation is done, whatever was chosen at an earlier one
      has a descendant that a majority of the current voters accepted, or was purged. */
  lemma SyncCarriesOver(conf: Conf, clean: bool, s: State, b: Ballot) returns (e: Ballot)
    requires GoodConf(conf) && Inv(conf, clean, s) && Chosen(conf, s, b) && s.proposals[b].gen < s.current
    requires Synced(conf, s, s.current)
    ensures (ChosenAt(conf, s, s.current, e) && b < e && Descends(s, e, b)) || PurgedBy(s, b, s.current)
  {
    hide Inv, Descends, TooLate;
    e := 0;
    if ScannedBlank(conf, s, s.current) {
      BlankMeansPurged(conf, clean, s, s.current, b);
    } else {
      e :| ChosenAt(conf, s, s.current, e);
      GenerationsAreOrdered(conf, clean, s, b, e);
      ChosenInTime(conf, clean, s, e);
      ChosenIsAncestor(conf, clean, s, b, e);
    }
  }

  // ---- purges across voter changes ----

  /** No ballot below d is newly accepted under the voters of the purge or later ones. */
  ghost predicate NoNewAcksBelow(s: State, t: State, d: PurgeMsg)
  {
    forall n: NodeId, b: Ballot :: Acked(t, n, b) && b in t.proposals && d.gen <= t.proposals[b].gen && b < d.ballot ==> Acked(s, n, b)
  }

  lemma NewAckNeedsAccept(conf: Conf, s: State, e: Event, t: State, n: NodeId, b: Ballot)
    requires Enabled(conf, s, e) && t == Apply(s, e) && Acked(t, n, b) && !Acked(s, n, b)
    ensures Serves(conf, s, n) && b in s.proposals && s.inst[n] == s.proposals[b].gen && b >= s.slots[n].Promised()
  {
  }

  lemma AcceptIsAbovePurge(conf: Conf, s: State, n: NodeId, b: Ballot, d: PurgeMsg)
    requires GoodConf(conf) && Inv(conf, true, s) && d in s.purges && Serves(conf, s, n)
    requires b in s.proposals && s.inst[n] == s.proposals[b].gen >= d.gen && b >= s.slots[n].Promised()
    ensures b >= d.ballot
  {
    hide Inv;
    if d.gen == s.proposals[b].gen {
      PurgeFact(conf, true, s, d);
      assert HeldAt(s, d.gen, n, d.ballot);
      HoldFact(conf, true, s, d.gen, n, d.ballot);
    } else {
      FreshFact(conf, true, s, b, d);
    }
  }

  lemma StepAcceptsAbovePurge(conf: Conf, s: State, e: Event, t: State, d: PurgeMsg)
    requires Enabled(conf, s, e) && t == Apply(s, e) && GoodConf(conf) && Inv(conf, true, s) && d in s.purges && Grows(s, t)
    ensures NoNewAcksBelow(s, t, d)
  {
    hide Inv, Enabled, Apply, Serves;
    forall n: NodeId, b: Ballot | Acked(t, n, b) && !Acked(s, n, b) && b in t.proposals && d.gen <= t.proposals[b].gen
      ensures b >= d.ballot
    {
      NewAckNeedsAccept(conf, s, e, t, n, b);
      AcceptIsAbovePurge(conf, s, n, b, d);
    }
  }

  lemma AcceptsAreAbovePurge(conf: Conf, s: State, t: State, d: PurgeMsg)
    requires GoodConf(conf) && Inv(conf, true, s) && CleanNext(conf, s, t) && d in s.purges
    ensures NoNewAcksBelow(s, t, d)
  {
    hide Inv;
    var e :| Enabled(conf, s, e) && CleanStep(conf, s, e) && t == Apply(s, e);
    StepGrows(conf, s, e, t);
    hide NoNewAcksBelow, Grows, CleanStep;
    StepAcceptsAbovePurge(conf, s, e, t, d);
  }

  lemma {:induction false} AcksBelowPurgeAreFrozen(conf: Conf, nodes: set<NodeId>, run: seq<State>, i: nat, j: nat, d: PurgeMsg)
    requires IsRun(conf, nodes, run) && CleanSteps(conf, run) && i <= j < |run| && d in run[i].purges
    ensures d in run[j].purges && NoNewAcksBelow(run[i], run[j], d)
    decreases j
  {
    hide Inv, Next, CleanNext;
    if i < j {
      AcksBelowPurgeAreFrozen(conf, nodes, run, i, j - 1, d);
      RunInv(conf, nodes, run, true, j - 1);
      RunGrows(conf, nodes, run, j - 1, j);
      assert CleanNext(conf, run[j - 1], run[j]);
      AcceptsAreAbovePurge(conf, run[j - 1], run[j], d);
      var s := run[j - 1];
      forall n: NodeId, b: Ballot | Acked(s, n, b) ensures b in s.proposals {
        TookFact(conf, true, s, n, b);
      }
      FrozenOn(run[i], run[j - 1], run[j], d);
      assert d in run[j].purges;
    }
  }

  lemma FrozenOn(s: State, t: State, u: State, d: PurgeMsg)
    requires NoNewAcksBelow(s, t, d) && NoNewAcksBelow(t, u, d) && Grows(t, u)
    requires forall n: NodeId, b: Ballot :: Acked(t, n, b) ==> b in t.proposals
    ensures NoNewAcksBelow(s, u, d)
  {
  }

  /** Once a purge of d was sent under the voters of generation g of a clean run, no voter of
      g or later holds a row below d, no proposal made there starts from one, and no ballot
      below d is newly chosen there, whatever purges are lost and however the voters change. */
  lemma PurgeNeverResurrectsAcrossChanges(conf: Conf, nodes: set<NodeId>, run: seq<State>, i: nat, j: nat, d: PurgeMsg)
    requires IsRun(conf, nodes, run) && CleanSteps(conf, run) && i <= j < |run| && d in run[i].purges
    ensures forall n :: Serves(conf, run[j], n) && run[j].inst[n] >= d.gen ==>
      run[j].slots[n].Accepted() == 0 || run[j].slots[n].Accepted() >= d.ballot
    ensures forall c :: c in run[j].proposals && run[j].proposals[c].gen > d.gen ==> c > d.ballot
    ensures forall c :: c in run[j].proposals && run[j].proposals[c].gen >= d.gen && c > d.ballot ==>
      run[j].proposals[c].base == 0 || run[j].proposals[c].base >= d.ballot
    ensures NoNewAcksBelow(run[i], run[j], d)
  {
    hide Inv, Next, CleanNext, CleanSteps;
    var s := run[j];
    RunInv(conf, nodes, run, true, j);
    RunGrows(conf, nodes, run, i, j);
    AcksBelowPurgeAreFrozen(conf, nodes, run, i, j, d);
    hide NoNewAcksBelow, Grows;
    forall n | Serves(conf, s, n) && s.inst[n] >= d.gen
      ensures s.slots[n].Accepted() == 0 || s.slots[n].Accepted() >= d.ballot
    {
      ServingRowAbovePurge(conf, s, n, d);
    }
    forall c | c in s.proposals && s.proposals[c].gen > d.gen ensures c > d.ballot {
      FreshFact(conf, true, s, c, d);
    }
    forall c | c in s.proposals && s.proposals[c].gen >= d.gen && c > d.ballot
      ensures s.proposals[c].base == 0 || s.proposals[c].base >= d.ballot
    {
      PurgeHidesBelow(conf, true, s, c, d);
    }
  }

  lemma ServingRowAbovePurge(conf: Conf, s: State, n: NodeId, d: PurgeMsg)
    requires GoodConf(conf) && Inv(conf, true, s) && d in s.purges && Serves(conf, s, n) && s.inst[n] >= d.gen
    ensures s.slots[n].Accepted() == 0 || s.slots[n].Accepted() >= d.ballot
  {
    hide Inv;
    SlotFact(conf, true, s, n);
    PurgeFact(conf, true, s, d);
    var a := s.slots[n].Accepted();
    if a > 0 {
      if d.gen < s.proposals[a].gen {
        FreshFact(conf, true, s, a, d);
      } else {
        assert Stays(conf, n, d.gen, s.inst[n]);
        assert HeldAt(s, d.gen, n, d.ballot);
        HoldFact(conf, true, s, d.gen, n, d.ballot);
      }
    }
  }
}
