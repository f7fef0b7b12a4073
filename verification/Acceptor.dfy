/** The acceptor of one node (paxos/acceptor.go): its rows, floor, marker and installed
    view, and the handlers that change them. */
module AcceptorNode {
  import opened Options
  import opened Slots

  type Reg = seq<nat>

  /** The parts of the cluster view the acceptor looks at: voters map to the epoch that
      added them. */
  datatype View = View(incarnation: nat, epoch: nat, version: nat, voters: map<NodeId, nat>)
  {
    /** -1 when the view is older than (inc, ep), 0 when equal, 1 when newer. */
    function Compare(inc: nat, ep: nat): (c: int) {
      if incarnation != inc then if incarnation < inc then -1 else 1
      else if epoch != ep then if epoch < ep then -1 else 1
      else 0
    }
  }

  /** Views in the order acceptors install them. */
  ghost predicate Newer(a: View, b: View)
  {
    || a.incarnation > b.incarnation
    || (a.incarnation == b.incarnation && a.epoch > b.epoch)
    || (a.incarnation == b.incarnation && a.epoch == b.epoch && a.version > b.version)
  }

  datatype Answer =
    | NeedView
    | StaleView(view: View)
    | IsRetired
    | IsAmnesiac
    | BadBallot
    | Expired
    | Voted(reply: Reply)
    | ReadReply(accepted: Ballot, promised: Ballot, value: Option<Value>)
    | Ok

  class Acceptor {
    const self: NodeId
    var installed: Option<View>
    var marker: Option<nat>
    var retired: bool
    var floor: Ballot
    var rows: map<Reg, Row>

    ghost predicate Valid()
      reads this
    {
      forall reg :: reg in rows ==> SlotOf(reg).Valid()
    }

    function SlotOf(reg: Reg): Slot
      reads this
    {
      Slot(if reg in rows then Some(rows[reg]) else None, floor)
    }

    /** Only a request at exactly the installed (incarnation, epoch) passes. */
    predicate Gate(inc: nat, epoch: nat)
      reads this
    {
      installed.Some? && installed.value.Compare(inc, epoch) == 0
    }

    /** The marker disagrees with what the installed view says about this voter. */
    predicate Amnesiac()
      reads this
    {
      && installed.Some?
      && self in installed.value.voters
      && marker != Some(installed.value.voters[self])
    }

    /** Prepare, read and scan need a voter that forgot nothing. */
    predicate MayAnswer(inc: nat, epoch: nat)
      reads this
    {
      Gate(inc, epoch) && !retired && !Amnesiac()
    }

    /** What a request at another epoch is told: the installed view when that is newer, else that
        the view is needed. */
    ghost predicate GateAnswer(inc: nat, epoch: nat, a: Answer)
      reads this
    {
      match installed
      case None => a == NeedView
      case Some(v) =>
        || (a == NeedView && (v.incarnation < inc || (v.incarnation == inc && v.epoch < epoch)))
        || (a == StaleView(v) && (v.incarnation > inc || (v.incarnation == inc && v.epoch > epoch)))
    }

    constructor (id: NodeId)
      ensures Valid() && self == id && rows == map[] && floor == 0
      ensures installed == None && marker == None && !retired
    {
      self := id;
      installed, marker, retired, floor, rows := None, None, false, 0, map[];
    }

    function Refusal(inc: nat, epoch: nat): (a: Answer)
      reads this
      requires !MayAnswer(inc, epoch)
      ensures a.StaleView? || a.NeedView? || a.IsRetired? || a.IsAmnesiac?
    {
      if installed.None? then NeedView
      else if installed.value.Compare(inc, epoch) > 0 then StaleView(installed.value)
      else if installed.value.Compare(inc, epoch) < 0 then NeedView
      else if retired then IsRetired
      else IsAmnesiac
    }

    method HandlePrepare(inc: nat, epoch: nat, reg: Reg, b: Ballot) returns (a: Answer)
      requires Valid()
      modifies this`rows
      ensures Valid()
      ensures forall o :: o != reg ==> SlotOf(o) == old(SlotOf(o))
      ensures a.Voted? || a.BadBallot? <==>
        && installed.Some? && installed.value.incarnation == inc && installed.value.epoch == epoch && !retired
        && (self !in installed.value.voters || marker == Some(installed.value.voters[self]))
      ensures a.BadBallot? ==> b == 0
      ensures a.Voted? ==>
        b > 0 && a == Voted(Prepare(old(SlotOf(reg)), b).1) && SlotOf(reg) == Prepare(old(SlotOf(reg)), b).0
      ensures !a.Voted? ==> rows == old(rows)
      ensures a.Voted? || a.BadBallot? || a.IsRetired? || a.IsAmnesiac? || GateAnswer(inc, epoch, a)
      ensures a.IsRetired? <==> installed.Some? && installed.value.incarnation == inc && installed.value.epoch == epoch && retired
      ensures a.IsAmnesiac? <==>
        && installed.Some? && installed.value.incarnation == inc && installed.value.epoch == epoch && !retired
        && self in installed.value.voters && marker != Some(installed.value.voters[self])
    {
      if !MayAnswer(inc, epoch) {
        return Refusal(inc, epoch);
      }
      if b == 0 {
        return BadBallot;
      }
      var found := reg in rows;
      var row := if found then rows[reg] else Row(0, 0, None);
      var promised := row.promised;
      if !found && floor > promised {
        promised := floor;
      }
      if b <= promised {
        return Voted(Conflict(promised));
      }
      rows := rows[reg := row.(promised := b)];
      return Voted(Promise(row.accepted, row.value));
    }

    /** An accept is not refused to an amnesiac voter: a voter being added takes accepts
        before it carries its marker. */
    method HandleAccept(inc: nat, epoch: nat, reg: Reg, b: Ballot, v: Option<Value>, notAfter: nat, now: nat)
      returns (a: Answer)
      requires Valid()
      modifies this`rows
      ensures Valid()
      ensures forall o :: o != reg ==> SlotOf(o) == old(SlotOf(o))
      ensures a.Voted? <==>
        && installed.Some? && installed.value.incarnation == inc && installed.value.epoch == epoch && !retired
        && b > 0 && (notAfter == 0 || now <= notAfter)
      ensures a.Voted? ==> a == Voted(Accept(old(SlotOf(reg)), b, v).1) && SlotOf(reg) == Accept(old(SlotOf(reg)), b, v).0
      ensures !a.Voted? ==> rows == old(rows)
      ensures a.Voted? || a.BadBallot? || a.Expired? || a.IsRetired? || GateAnswer(inc, epoch, a)
      ensures a.IsRetired? <==> installed.Some? && installed.value.incarnation == inc && installed.value.epoch == epoch && retired
      ensures a.BadBallot? ==> b == 0
      ensures a.Expired? ==> 0 < notAfter < now
    {
      if !Gate(inc, epoch) {
        return Refusal(inc, epoch);
      }
      if retired {
        return IsRetired;
      }
      if b == 0 {
        return BadBallot;
      }
      if notAfter != 0 && now > notAfter {
        return Expired;
      }
      var found := reg in rows;
      var row := if found then rows[reg] else Row(0, 0, None);
      var promised := row.promised;
      if !found && floor > promised {
        promised := floor;
      }
      if b < promised {
        return Voted(Conflict(promised));
      }
      if b < row.accepted {
        return Voted(Conflict(row.accepted));
      }
      rows := rows[reg := Row(b, b, v)];
      return Voted(AcceptedAck);
    }

    method HandleRead(inc: nat, epoch: nat, reg: Reg) returns (a: Answer)
      requires Valid()
      ensures a.ReadReply? <==>
        && installed.Some? && installed.value.incarnation == inc && installed.value.epoch == epoch && !retired
        && (self !in installed.value.voters || marker == Some(installed.value.voters[self]))
      ensures a.ReadReply? || a.IsRetired? || a.IsAmnesiac? || GateAnswer(inc, epoch, a)
      ensures a.IsRetired? <==> installed.Some? && installed.value.incarnation == inc && installed.value.epoch == epoch && retired
      ensures a.ReadReply? ==> a.accepted == SlotOf(reg).Accepted() && a.value == SlotOf(reg).Value()
      ensures a.ReadReply? ==> a.promised == if reg in rows then rows[reg].promised else 0
    {
      if !MayAnswer(inc, epoch) {
        return Refusal(inc, epoch);
      }
      var row := if reg in rows then rows[reg] else Row(0, 0, None);
      return ReadReply(row.accepted, row.promised, row.value);
    }

    /** A purge is taken at any epoch.  Other registers notice it only as a higher floor. */
    method HandlePurge(reg: Reg, d: Ballot) returns (a: Answer)
      requires Valid()
      modifies this`rows, this`floor
      ensures Valid()
      ensures d > 0 ==> SlotOf(reg) == Purge(old(SlotOf(reg)), d)
      ensures d == 0 ==> rows == old(rows) && floor == old(floor)
      ensures floor >= old(floor)
      ensures forall o :: o != reg ==> SlotOf(o) == old(SlotOf(o)).(floor := floor)
    {
      if d == 0 {
        return BadBallot;
      }
      if reg !in rows || rows[reg].accepted != d {
        return Ok;
      }
      var row := rows[reg];
      if row.promised == d {
        rows := rows - {reg};
        if d > floor {
          floor := d;
        }
      } else {
        rows := rows[reg := Row(row.promised, 0, None)];
      }
      return Ok;
    }

    method SetMarker(since: nat)
      modifies this`marker, this`retired
      ensures marker == Some(since) && !retired
    {
      marker := Some(since);
      retired := false;
    }

    /** A view that is not newer is ignored.  A view that drops a voter carrying a marker
        retires it and wipes its rows and floor. */
    method Install(v: View)
      requires Valid()
      modifies this`installed, this`retired, this`rows, this`floor
      ensures Valid()
      ensures if old(installed.None? || Newer(v, installed.value))
        then installed == Some(v)
        else installed == old(installed) && rows == old(rows) && floor == old(floor) && retired == old(retired)
      ensures installed != old(installed) && self !in v.voters && marker.Some? && !old(retired) ==>
        retired && rows == map[] && floor == 0
      ensures self in v.voters || marker.None? || old(retired) ==>
        retired == old(retired) && rows == old(rows) && floor == old(floor)
      ensures installed.Some? && old(installed.Some?) ==>
        installed == old(installed) || Newer(installed.value, old(installed.value))
    {
      if installed.Some? {
        var c := installed.value.Compare(v.incarnation, v.epoch);
        if c > 0 || (c == 0 && v.version <= installed.value.version) {
          return;
        }
      }
      var retire := self !in v.voters && !retired && marker.Some?;
      installed := Some(v);
      if retire {
        retired, rows, floor := true, map[], 0;
      }
    }
  }
}

/** The proposer counters of one node (node/node.go): handed out in persisted blocks so
    that a restart never repeats one. */
module BallotCounter {

  const BLOCK := 1000

  /** next == 0 until the first NextBallot after a start; persisted survives a restart. */
  datatype Counter = Counter(next: nat, limit: nat, persisted: nat)

  function NextOf(s: Counter): (r: (Counter, nat))
  {
    var t := if s.next == 0 || s.next >= s.limit
      then Counter(s.persisted + 1, s.persisted + BLOCK, s.persisted + BLOCK) else s;
    (t.(next := t.next + 1), t.next)
  }

  function BumpOf(s: Counter, c: nat): (r: Counter)
  {
    if c < s.next then s else Counter(c + 1, c + BLOCK, c + BLOCK)
  }

  function RestartOf(s: Counter): (r: Counter)
  {
    Counter(0, 0, s.persisted)
  }

  /** No number of issued can come out of s again. */
  ghost predicate Fresh(s: Counter, issued: set<nat>)
  {
    && s.limit <= s.persisted
    && s.next <= s.persisted
    && forall i :: i in issued ==> i < s.persisted && (s.next != 0 ==> i < s.next)
  }

  lemma NextIsFresh(s: Counter, issued: set<nat>)
    requires Fresh(s, issued)
    ensures NextOf(s).1 !in issued && NextOf(s).1 > 0
    ensures Fresh(NextOf(s).0, issued + {NextOf(s).1})
    ensures NextOf(s).0.next == NextOf(s).1 + 1
  {
  }

  /** BumpBallot keeps every issued number out of reach exactly when a ballot was taken
      since the last start, or c is already at the end of the persisted block. */
  lemma BumpIsFreshIff(s: Counter, c: nat)
    requires Fresh(s, {})
    ensures (forall issued :: Fresh(s, issued) ==> Fresh(BumpOf(s, c), issued))
      <==> s.next != 0 || c + 1 >= s.persisted
  {
    if s.next == 0 && c + 1 < s.persisted {
      assert Fresh(s, {c + 1}) && !Fresh(BumpOf(s, c), {c + 1});
    }
  }

  /** Right after a restart a bump below the persisted block hands an old number out again. */
  lemma BumpAfterRestartReuses()
    ensures
      var (s, b) := NextOf(Counter(0, 0, 0));
      var t := BumpOf(RestartOf(s), 0);
      b in {1} && NextOf(t).1 == b
  {
  }

  class Ballots {
    var s: Counter
    ghost var issued: set<nat>

    ghost predicate Valid()
      reads this
    {
      Fresh(s, issued)
    }

    constructor ()
      ensures Valid() && issued == {}
    {
      s := Counter(0, 0, 0);
      issued := {};
    }

    method NextBallot() returns (b: nat)
      requires Valid()
      modifies this
      ensures Valid() && b !in old(issued) && b > 0 && issued == old(issued) + {b}
      ensures s == NextOf(old(s)).0 && b == NextOf(old(s)).1
    {
      NextIsFresh(s, issued);
      if s.next == 0 || s.next >= s.limit {
        s := Counter(s.persisted + 1, s.persisted + BLOCK, s.persisted + BLOCK);
      }
      b := s.next;
      s := s.(next := s.next + 1);
      issued := issued + {b};
    }

    method BumpBallot(c: nat)
      requires Valid()
      modifies this`s
      ensures s == BumpOf(old(s), c) && s.next > c
      ensures old(s.next) != 0 || c + 1 >= old(s.persisted) ==> Valid()
    {
      BumpIsFreshIff(s, c);
      if c < s.next {
        return;
      }
      s := Counter(c + 1, c + BLOCK, c + BLOCK);
    }

    method Restart()
      requires Valid()
      modifies this`s
      ensures Valid() && s == RestartOf(old(s))
    {
      s := RestartOf(s);
    }

    /** paxos/proposer.go ballotAbove: a counter never issued before whose ballot, under
        this node's id self, lies above the ballot (c, other). */
    method BallotAbove(c: nat, other: nat, self: nat) returns (b: nat)
      requires Valid()
      modifies this
      ensures Valid() && b !in old(issued) && b in issued && old(issued) <= issued
      ensures b > c || (b == c && self > other)
    {
      b := NextBallot();
      while !(b > c || (b == c && self > other))
        invariant Valid() && s.next > 0 && b in issued && b !in old(issued) && old(issued) <= issued
        invariant b <= c ==> s.next == b + 1
        decreases c + 1 - b
      {
        BumpBallot(c);
        b := NextBallot();
      }
    }
  }
}
